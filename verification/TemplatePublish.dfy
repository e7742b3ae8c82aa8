/**
 The publish validator: it reads the requirement versions into a map, walks the template once with the counters and sets
 it updates, checks the page numbers, and for publication the signature and the required fields.
 */
module TemplatePublish {
  import opened Common
  import opened Placement
  import opened PlacementFacts
  import opened TemplateAst
  import opened TemplateRules

  // ---------------------------------------------------------------- the visitor

  /** The counters and the sets the walk updates; a failing check is a `false` result. */
  class PublishVisitor {
    const definitions: Definitions
    var referenced: set<string>
    var slotIds: set<string>
    var required: nat
    var pageCount: nat

    constructor (definitions: Definitions)
      ensures this.definitions == definitions
      ensures referenced == {} && slotIds == {} && required == 0 && pageCount == 1
    {
      this.definitions := definitions;
      referenced, slotIds, required, pageCount := {}, {}, 0, 1;
    }

    /** The state after walking over nodes, slots and breaks that pass. */
    twostate predicate Walked(nodes: seq<Node>, slots: seq<Slot>, breaks: nat)
      reads this
    {
      && referenced == old(referenced) + References(definitions, nodes)
      && slotIds == old(slotIds) + Ids(slots) && required == old(required) + |Required(slots)|
      && pageCount == old(pageCount) + breaks
    }

    /** The node itself, without what is below it. */
    method Check(n: Node, body: bool) returns (ok: bool)
      modifies this
      ensures ok == (Allowed(definitions, n, body) && (n.SignatureSlot? ==> Fresh(old(slotIds), [n.slot])))
      ensures ok ==> Walked([n], if n.SignatureSlot? then [n.slot] else [], if n.PageBreak? then 1 else 0)
    {
      if !body && (n.PageBreak? || n.SignatureSlot? || n.LoopTable?) {
        return false;
      }
      One(definitions, n, body);
      ok := true;
      match n
      case PageBreak => pageCount := pageCount + 1;
      case Variable(key) => ok := VisitVariable(key);
      case Image(source, _) =>
        ok := source in definitions && definitions[source].kind.ImageType?;
        referenced := referenced + {source};
      case LoopTable(columns) =>
        for i := 0 to |columns|
          invariant forall j | 0 <= j < i :: columns[j].variable in MATERIAL_VARIABLES
          invariant unchanged(this)
        {
          if columns[i].variable !in MATERIAL_VARIABLES {
            assert columns[i] in columns;
            return false;
          }
        }
      case SignatureSlot(slot) => ok := VisitSlot(slot);
      case _ =>
    }

    method VisitVariable(key: string) returns (ok: bool)
      modifies this`referenced
      ensures ok == VariableAllowed(definitions, key)
      ensures ok ==> referenced == old(referenced) + (if key in definitions then {key} else {})
    {
      if "material." <= key {
        return false;
      }
      if key !in BUILTIN_VARIABLES && key !in definitions {
        return false;
      }
      if key in definitions {
        if Uploaded(definitions[key].kind) {
          return false;
        }
        referenced := referenced + {key};
      }
      ok := true;
    }

    method VisitSlot(slot: Slot) returns (ok: bool)
      modifies this`slotIds, this`required
      ensures ok == Fresh(old(slotIds), [slot])
      ensures ok ==> slotIds == old(slotIds) + {slot.slotId}
      ensures ok ==> required == old(required) + if slot.required then 1 else 0
    {
      if slot.slotId in slotIds {
        return false;
      }
      slotIds := slotIds + {slot.slotId};
      if slot.required {
        required := required + 1;
      }
      ok := slot.x + slot.width <= PAGE_WIDTH && slot.y + slot.height <= PAGE_HEIGHT;
      assert [slot][1..] == [];
    }

    method Visit(n: Node, body: bool) returns (ok: bool)
      modifies this
      ensures ok == (Fresh(old(slotIds), NodeSlots(n)) && AllAllowed(definitions, NodeBelow(n), body))
      ensures ok ==> Walked(NodeBelow(n), NodeSlots(n), NodeBreaks(n))
      decreases n, 0
    {
      One(definitions, n, body);
      WalkedOn(definitions, [n], Inside(n), body);
      ok := Check(n, body);
      if !ok {
        return;
      }
      assert n.SignatureSlot? || slotIds == old(slotIds);
      match n
      case Heading(_, children) => ok := VisitAll(children, body);
      case Paragraph(children) => ok := VisitAll(children, body);
      case Table(rows) => ok := VisitRows(rows, body);
      case _ =>
    }

    method VisitAll(nodes: seq<Node>, body: bool) returns (ok: bool)
      modifies this
      ensures ok == (Fresh(old(slotIds), NodesSlots(nodes)) && AllAllowed(definitions, NodesBelow(nodes), body))
      ensures ok ==> Walked(NodesBelow(nodes), NodesSlots(nodes), NodesBreaks(nodes))
      decreases nodes, 1
    {
      ok := true;
      var i := 0;
      assert nodes[..0] == [];
      while ok && i < |nodes|
        invariant 0 <= i <= |nodes|
        invariant ok == Passes(old(slotIds), definitions, nodes[..i], body)
        invariant ok ==> Walked(NodesBelow(nodes[..i]), NodesSlots(nodes[..i]), NodesBreaks(nodes[..i]))
      {
        Extends(old(slotIds), definitions, nodes, i, body);
        ok := Visit(nodes[i], body);
        i := i + 1;
      }
      PrefixDecides(old(slotIds), definitions, nodes, i, body);
    }

    /** Body, header and footer, on a fresh visitor. */
    method VisitRegions(ast: Ast) returns (ok: bool)
      requires slotIds == {} && referenced == {} && required == 0 && pageCount == 1
      modifies this
      ensures ok == NodesInPlace(definitions, ast)
      ensures ok ==> referenced == References(definitions, AllNodes(ast))
      ensures ok ==> required == |Required(NodesSlots(ast.children))| && pageCount == 1 + NodesBreaks(ast.children)
    {
      FreshMeans({}, NodesSlots(ast.children));
      WalkedOn(definitions, NodesBelow(ast.children), NodesBelow(ast.header), true);
      WalkedOn(definitions, NodesBelow(ast.children) + NodesBelow(ast.header), NodesBelow(ast.footer), true);
      ok := VisitAll(ast.children, true);
      if ok {
        PlainRegion(definitions, slotIds, ast.header);
        ok := VisitAll(ast.header, false);
      }
      if ok {
        PlainRegion(definitions, slotIds, ast.footer);
        ok := VisitAll(ast.footer, false);
      }
    }

    method VisitCells(cells: seq<Cell>, body: bool) returns (ok: bool)
      modifies this
      ensures ok == (Fresh(old(slotIds), CellsSlots(cells)) && AllAllowed(definitions, CellsBelow(cells), body))
      ensures ok ==> Walked(CellsBelow(cells), CellsSlots(cells), CellsBreaks(cells))
      decreases cells, 2
    {
      if cells == [] {
        return true;
      }
      FreshConcat(slotIds, NodesSlots(cells[0].children), CellsSlots(cells[1..]));
      SlotsWalkedOn(NodesSlots(cells[0].children), CellsSlots(cells[1..]));
      WalkedOn(definitions, NodesBelow(cells[0].children), CellsBelow(cells[1..]), body);
      ok := VisitAll(cells[0].children, body);
      if ok {
        ok := VisitCells(cells[1..], body);
      }
    }

    method VisitRows(rows: seq<Row>, body: bool) returns (ok: bool)
      modifies this
      ensures ok == (Fresh(old(slotIds), RowsSlots(rows)) && AllAllowed(definitions, RowsBelow(rows), body))
      ensures ok ==> Walked(RowsBelow(rows), RowsSlots(rows), RowsBreaks(rows))
      decreases rows, 3
    {
      if rows == [] {
        return true;
      }
      FreshConcat(slotIds, CellsSlots(rows[0].cells), RowsSlots(rows[1..]));
      SlotsWalkedOn(CellsSlots(rows[0].cells), RowsSlots(rows[1..]));
      WalkedOn(definitions, CellsBelow(rows[0].cells), RowsBelow(rows[1..]), body);
      ok := VisitCells(rows[0].cells, body);
      if ok {
        ok := VisitRows(rows[1..], body);
      }
    }
  }

  lemma PlainRegion(definitions: Definitions, seen: set<string>, nodes: seq<Node>)
    ensures AllAllowed(definitions, NodesBelow(nodes), false) ==>
      NodesSlots(nodes) == [] && NodesBreaks(nodes) == 0 && Fresh(seen, NodesSlots(nodes))
  {
    if AllAllowed(definitions, NodesBelow(nodes), false) {
      AllowedIsPlain(definitions, NodesBelow(nodes));
      PlainHasNoSlots(nodes);
    }
  }

  // ---------------------------------------------------------------- prefixes of a walk

  predicate Passes(seen: set<string>, definitions: Definitions, nodes: seq<Node>, body: bool) {
    Fresh(seen, NodesSlots(nodes)) && AllAllowed(definitions, NodesBelow(nodes), body)
  }

  /** One node more: the walk passes iff it passed before and the node passes after it. */
  lemma Extends(seen: set<string>, definitions: Definitions, nodes: seq<Node>, i: nat, body: bool)
    requires i < |nodes|
    ensures Passes(seen, definitions, nodes[..i + 1], body) <==>
      && Passes(seen, definitions, nodes[..i], body)
      && Fresh(seen + Ids(NodesSlots(nodes[..i])), NodeSlots(nodes[i]))
      && AllAllowed(definitions, NodeBelow(nodes[i]), body)
    ensures References(definitions, NodesBelow(nodes[..i + 1])) ==
      References(definitions, NodesBelow(nodes[..i])) + References(definitions, NodeBelow(nodes[i]))
    ensures Ids(NodesSlots(nodes[..i + 1])) == Ids(NodesSlots(nodes[..i])) + Ids(NodeSlots(nodes[i]))
    ensures |Required(NodesSlots(nodes[..i + 1]))| ==
      |Required(NodesSlots(nodes[..i]))| + |Required(NodeSlots(nodes[i]))|
    ensures NodesBreaks(nodes[..i + 1]) == NodesBreaks(nodes[..i]) + NodeBreaks(nodes[i])
  {
    assert nodes[..i + 1] == nodes[..i] + [nodes[i]];
    WalkAppend(nodes[..i], nodes[i]);
    FreshConcat(seen, NodesSlots(nodes[..i]), NodeSlots(nodes[i]));
    SlotsWalkedOn(NodesSlots(nodes[..i]), NodeSlots(nodes[i]));
    WalkedOn(definitions, NodesBelow(nodes[..i]), NodeBelow(nodes[i]), body);
  }

  /** A failing prefix fails the whole list. */
  lemma {:induction false} PrefixDecides(
    seen: set<string>, definitions: Definitions, nodes: seq<Node>, i: nat, body: bool
  )
    requires i <= |nodes|
    ensures Passes(seen, definitions, nodes, body) ==> Passes(seen, definitions, nodes[..i], body)
    ensures i == |nodes| ==> nodes[..i] == nodes
    decreases |nodes| - i
  {
    if i < |nodes| {
      PrefixDecides(seen, definitions, nodes, i + 1, body);
      Extends(seen, definitions, nodes, i, body);
    } else {
      assert nodes[..i] == nodes;
    }
  }

  // ---------------------------------------------------------------- requirement versions

  /** Reads the definitions by key; every version has to fit, and the authorization letter has to be among them. */
  method ReadSources(sources: seq<Source>, publishing: bool) returns (r: Option<Definitions>)
    ensures r == if SourcesOk(sources, publishing) then Some(DefinitionsOf(sources)) else None
  {
    var definitions: Definitions := map[];
    for i := 0 to |sources|
      invariant forall j | 0 <= j < i :: SourceOk(sources[j], publishing)
      invariant DistinctSources(sources[..i]) && definitions == DefinitionsOf(sources[..i])
    {
      var s := sources[i];
      assert s in sources && sources[..i + 1][..i] == sources[..i];
      if s.definition.None? || s.definition.value.key != s.key {
        return None;
      }
      DefinedKeys(sources[..i], publishing, s.key);
      if s.key in definitions {
        RepeatsKey(sources, i);
        return None;
      }
      definitions := definitions[s.key := s.definition.value];
      if publishing && (s.status == DisabledVersion || s.disabled) {
        return None;
      }
      if publishing && s.status != PublishedVersion {
        return None;
      }
    }
    assert sources[..|sources|] == sources;
    var found := NamesAuthorization(sources);
    return if found then Some(definitions) else None;
  }

  method NamesAuthorization(sources: seq<Source>) returns (found: bool)
    ensures found == exists s | s in sources :: IsAuthorization(s)
  {
    for i := 0 to |sources|
      invariant forall j | 0 <= j < i :: !IsAuthorization(sources[j])
    {
      if IsAuthorization(sources[i]) {
        assert sources[i] in sources;
        return true;
      }
    }
    return false;
  }

  lemma RepeatsKey(sources: seq<Source>, i: nat)
    requires i < |sources| && exists j | 0 <= j < i :: sources[..i][j].key == sources[i].key
    ensures !DistinctSources(sources)
  {
    var j :| 0 <= j < i && sources[..i][j].key == sources[i].key;
    assert sources[j].key == sources[i].key;
  }

  // ---------------------------------------------------------------- the validator

  /** The template, when it is accepted as a structure or, with `publishing`, for publication. */
  method Validate(ast: Ast, sources: seq<Source>, publishing: bool) returns (r: Result<Ast>)
    ensures r == if Accepted(ast, sources, publishing) then Ok(ast) else Err(TemplateRejected)
  {
    var read := ReadSources(sources, publishing);
    if read.None? || !MarginsFit(ast.margins) {
      return Err(TemplateRejected);
    }
    var visitor := new PublishVisitor(read.value);
    var ok := visitor.VisitRegions(ast);
    if ok {
      ok := PagesExist(NodesSlots(ast.children), visitor.pageCount);
    }
    if ok && publishing {
      ok := visitor.required >= 1;
      if ok {
        EachDefined(sources, publishing);
        ok := AllUsed(sources, read.value, visitor.referenced);
      }
    }
    return if ok then Ok(ast) else Err(TemplateRejected);
  }

  lemma EachDefined(sources: seq<Source>, publishing: bool)
    requires SourcesOk(sources, publishing)
    ensures forall s | s in sources ::
      s.key in DefinitionsOf(sources) && s.definition == Some(DefinitionsOf(sources)[s.key])
  {
    forall s | s in sources
      ensures s.key in DefinitionsOf(sources) && s.definition == Some(DefinitionsOf(sources)[s.key])
    {
      var i :| 0 <= i < |sources| && sources[i] == s;
      DefinedAs(sources, publishing, i);
    }
  }

  method PagesExist(slots: seq<Slot>, pageCount: nat) returns (ok: bool)
    ensures ok <==> forall s | s in slots :: s.page <= pageCount
  {
    for i := 0 to |slots|
      invariant forall j | 0 <= j < i :: slots[j].page <= pageCount
    {
      if slots[i].page > pageCount {
        assert slots[i] in slots;
        return false;
      }
    }
    return true;
  }

  /** No required field is left unused. */
  method AllUsed(sources: seq<Source>, definitions: Definitions, referenced: set<string>) returns (ok: bool)
    requires forall s | s in sources :: s.key in definitions && s.definition == Some(definitions[s.key])
    ensures ok <==> forall s | s in sources && MustAppear(s.definition.value) :: s.key in referenced
  {
    for i := 0 to |sources|
      invariant forall j | 0 <= j < i && MustAppear(sources[j].definition.value) :: sources[j].key in referenced
    {
      assert sources[i] in sources;
      var definition := definitions[sources[i].key];
      if MustAppear(definition) && sources[i].key !in referenced {
        return false;
      }
    }
    return true;
  }
}
