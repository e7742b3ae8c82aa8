/** The final document: the renderer's placement checks, and the pages it lays out. */
module PdfDocument {
  import opened Common
  import opened CanonicalJson
  import opened Placement
  import opened PlacementFacts
  import opened PlacementChain
  import opened TemplateAst
  import opened TemplateProofs
  import opened TemplateRules

  // ---------------------------------------------------------------- renderFinal

  /** `new Map(placements.map(...))`: a later position of a slot replaces an earlier one. */
  function Overlays(positions: seq<Position>): map<string, Position> {
    if positions == [] then map[]
    else Overlays(positions[..|positions| - 1])[positions[|positions| - 1].slotId := positions[|positions| - 1]]
  }

  predicate Within(p: Position, s: Slot) {
    p.x >= s.x && p.y >= s.y && p.x + p.width <= s.x + s.width && p.y + p.height <= s.y + s.height
  }

  predicate Placed(overlays: map<string, Position>, s: Slot) {
    s.slotId in overlays && overlays[s.slotId].page == s.page && Within(overlays[s.slotId], s)
  }

  /** All checks of the final renderer before it draws anything. */
  ghost predicate Renders(ast: Ast, positions: seq<Position>) {
    var required, overlays := Required(AstSlots(ast)), Overlays(positions);
    && required != [] && (forall s | s in required :: Placed(overlays, s)) && |Ids(required)| == |overlays|
  }

  /** The visitor pushes every required slot it meets and stops at the first that is not placed. */
  method RenderFinal(ast: Ast, positions: seq<Position>) returns (r: Result<map<string, Position>>)
    ensures r.Ok? <==> Renders(ast, positions)
    ensures r.Ok? ==> r.value == Overlays(positions)
  {
    var overlays: map<string, Position> := map[];
    for i := 0 to |positions|
      invariant overlays == Overlays(positions[..i])
    {
      assert positions[..i + 1][..i] == positions[..i];
      overlays := overlays[positions[i].slotId := positions[i]];
    }
    assert positions[..|positions|] == positions;
    var slots, required: seq<Slot> := AstSlots(ast), [];
    assert slots[..0] == [];
    for i := 0 to |slots|
      invariant required == Required(slots[..i])
      invariant forall s | s in required :: Placed(overlays, s)
    {
      assert slots[..i + 1] == slots[..i] + [slots[i]];
      RequiredConcat(slots[..i], [slots[i]]);
      assert slots[i] in slots;
      if slots[i].required {
        if !Placed(overlays, slots[i]) {
          assert slots[i] in Required(slots);
          return Err(PlacementInvalid);
        }
        required := required + [slots[i]];
      }
    }
    assert slots[..|slots|] == slots;
    if required == [] || |Ids(required)| != |overlays| {
      return Err(PlacementInvalid);
    }
    return Ok(overlays);
  }

  lemma {:induction false} OverlaysAt(positions: seq<Position>, i: nat)
    requires Distinct(PositionIds(positions)) && i < |positions|
    ensures positions[i].slotId in Overlays(positions) && Overlays(positions)[positions[i].slotId] == positions[i]
  {
    if i < |positions| - 1 {
      var front := positions[..|positions| - 1];
      assert PositionIds(front) == PositionIds(positions)[..|front|];
      OverlaysAt(front, i);
      assert PositionIds(positions)[i] != PositionIds(positions)[|front|];
    }
  }

  lemma {:induction false} OverlayKeys(positions: seq<Position>)
    ensures Overlays(positions).Keys == Elements(PositionIds(positions))
  {
    if positions != [] {
      var front := positions[..|positions| - 1];
      OverlayKeys(front);
      assert PositionIds(positions) == PositionIds(front) + [positions[|front|].slotId];
    }
  }

  lemma SameMembers(a: seq<Slot>, b: seq<Slot>)
    requires multiset(a) == multiset(b)
    ensures (forall s :: s in a <==> s in b) && Ids(a) == Ids(b) && (a == [] <==> b == [])
  {
    assert forall s :: s in a <==> s in multiset(a);
    assert forall s :: s in b <==> s in multiset(b);
    assert |multiset(a)| == |multiset(b)|;
  }

  /** What the server accepted over the stored template, the renderer draws over the typed one. */
  lemma AcceptedRenders(positions: seq<Position>, slots: seq<Slot>, ast: Ast)
    requires PositionsAccepted(positions, slots) && multiset(Required(slots)) == multiset(Required(AstSlots(ast)))
    ensures Renders(ast, positions) <==> Required(slots) != []
  {
    SameMembers(Required(slots), Required(AstSlots(ast)));
    forall s | s in Required(slots)
      ensures Placed(Overlays(positions), s)
    {
      SlotPlaced(positions, slots, s);
    }
    SameCount(positions, slots);
  }

  lemma SlotPlaced(positions: seq<Position>, slots: seq<Slot>, s: Slot)
    requires PositionsAccepted(positions, slots) && s in Required(slots)
    ensures Placed(Overlays(positions), s)
  {
    var required := Required(slots);
    AcceptedSlotsDistinct(positions, slots);
    PositionIdsDistinct(positions, slots);
    NamedBySome(positions, s.slotId);
    var i :| 0 <= i < |positions| && positions[i].slotId == s.slotId;
    OverlaysAt(positions, i);
    assert positions[i] in positions;
    var k :| 0 <= k < |required| && required[k] == s;
    FoundAt(required, k);
  }

  lemma SameCount(positions: seq<Position>, slots: seq<Slot>)
    requires PositionsAccepted(positions, slots)
    ensures |Ids(Required(slots))| == |Overlays(positions)|
  {
    var required := Required(slots);
    OverlayKeys(positions);
    forall i | 0 <= i < |positions|
      ensures positions[i].slotId in Ids(required)
    {
      NamesARequiredSlot(positions, slots, i);
      var k :| 0 <= k < |required| && required[k].slotId == positions[i].slotId;
      assert required[k] in required;
    }
    forall id | id in Ids(required)
      ensures id in PositionIds(positions)
    {
      var s :| s in required && s.slotId == id;
      var k :| 0 <= k < |required| && required[k] == s;
      IsNamed(positions, slots, k);
    }
    assert Elements(PositionIds(positions)) == Ids(required);
    assert |Overlays(positions)| == |Overlays(positions).Keys|;
  }

  // ---------------------------------------------------------------- pagination

  /** Top-level children cut at the page breaks; top-level slots are kept apart. */
  function Pages(children: seq<Node>): (r: seq<seq<Node>>)
    ensures r != []
  {
    if children == [] then [[]]
    else
      var pages, last := Pages(children[..|children| - 1]), children[|children| - 1];
      if last.PageBreak? then pages + [[]]
      else if last.SignatureSlot? then pages
      else pages[|pages| - 1 := pages[|pages| - 1] + [last]]
  }

  function TopSlots(children: seq<Node>): seq<Slot> {
    if children == [] then []
    else
      TopSlots(children[..|children| - 1])
      + if children[|children| - 1].SignatureSlot? then [children[|children| - 1].slot] else []
  }

  /** The children that are drawn in the text flow. */
  function Flow(children: seq<Node>): seq<Node> {
    if children == [] then []
    else
      var last := children[|children| - 1];
      Flow(children[..|children| - 1]) + if last.PageBreak? || last.SignatureSlot? then [] else [last]
  }

  function Joined(pages: seq<seq<Node>>): seq<Node> {
    if pages == [] then [] else Joined(pages[..|pages| - 1]) + pages[|pages| - 1]
  }

  function TopBreaks(children: seq<Node>): nat {
    if children == [] then 0
    else TopBreaks(children[..|children| - 1]) + if children[|children| - 1].PageBreak? then 1 else 0
  }

  function LastPage(slots: seq<Slot>): nat {
    if slots == [] then 0
    else
      var front := LastPage(slots[..|slots| - 1]);
      if slots[|slots| - 1].page > front then slots[|slots| - 1].page else front
  }

  function PageCount(children: seq<Node>): nat {
    var named := LastPage(TopSlots(children));
    if named > |Pages(children)| then named else |Pages(children)|
  }

  function OnNumber(slots: seq<Slot>, page: nat): seq<Slot> {
    if slots == [] then []
    else OnNumber(slots[..|slots| - 1], page) + if slots[|slots| - 1].page == page then [slots[|slots| - 1]] else []
  }

  /** Padded with empty pages up to the highest page any slot names. */
  function Padded(pages: seq<seq<Node>>, count: nat): seq<seq<Node>> {
    pages + if |pages| < count then seq(count - |pages|, _ => []) else []
  }

  /** A page: its part of the text flow and the slots drawn over it. */
  datatype Page = Page(flow: seq<Node>, slots: seq<Slot>)

  function Document(children: seq<Node>): seq<Page> {
    var pages := Padded(Pages(children), PageCount(children));
    seq(|pages|, i requires 0 <= i < |pages| => Page(pages[i], OnNumber(TopSlots(children), i + 1)))
  }

  predicate Mismatched(overlays: map<string, Position>, s: Slot) {
    s.slotId in overlays && overlays[s.slotId].page != s.page
  }

  /** One pass over the children: pages grow at breaks, slots are collected. */
  method SplitPages(children: seq<Node>) returns (pages: seq<seq<Node>>, slots: seq<Slot>)
    ensures pages == Pages(children) && slots == TopSlots(children)
  {
    pages, slots := [[]], [];
    for i := 0 to |children|
      invariant pages == Pages(children[..i]) && slots == TopSlots(children[..i])
    {
      assert children[..i + 1][..i] == children[..i];
      if children[i].PageBreak? {
        pages := pages + [[]];
      } else if children[i].SignatureSlot? {
        slots := slots + [children[i].slot];
      } else {
        pages := pages[|pages| - 1 := pages[|pages| - 1] + [children[i]]];
      }
    }
    assert children[..|children|] == children;
  }

  /** The slots of one page; an overlay made for another page is an error. */
  method DrawSlots(slots: seq<Slot>, page: nat, overlays: map<string, Position>) returns (r: Result<seq<Slot>>)
    ensures r ==
      if exists s | s in slots :: s.page == page && Mismatched(overlays, s) then Err(OverlayPageMismatch)
      else Ok(OnNumber(slots, page))
  {
    var drawn: seq<Slot> := [];
    for i := 0 to |slots|
      invariant drawn == OnNumber(slots[..i], page)
      invariant forall k | 0 <= k < i && slots[k].page == page :: !Mismatched(overlays, slots[k])
    {
      assert slots[..i + 1][..i] == slots[..i];
      if slots[i].page == page {
        if Mismatched(overlays, slots[i]) {
          return Err(OverlayPageMismatch);
        }
        drawn := drawn + [slots[i]];
      }
    }
    assert slots[..|slots|] == slots;
    return Ok(drawn);
  }

  method Pad(pages: seq<seq<Node>>, count: nat) returns (padded: seq<seq<Node>>)
    requires |pages| <= count
    ensures padded == Padded(pages, count)
  {
    padded := pages;
    while |padded| < count
      invariant |pages| <= |padded| <= count && padded == Padded(pages, |padded|)
    {
      padded := padded + [[]];
    }
  }

  /** The whole layout: split, pad to the highest page named, draw every page. */
  method BuildDocument(children: seq<Node>, overlays: map<string, Position>) returns (r: Result<seq<Page>>)
    ensures r == if exists s | s in TopSlots(children) :: s.page >= 1 && Mismatched(overlays, s)
                 then Err(OverlayPageMismatch) else Ok(Document(children))
  {
    var pages, slots := SplitPages(children);
    LastPageBounds(slots);
    var padded := Pad(pages, PageCount(children));
    var document: seq<Page> := [];
    for i := 0 to |padded|
      invariant document == Document(children)[..i]
      invariant forall s | s in slots && 1 <= s.page <= i :: !Mismatched(overlays, s)
    {
      var drawn := DrawSlots(slots, i + 1, overlays);
      if drawn.Err? {
        return Err(OverlayPageMismatch);
      }
      document := document + [Page(padded[i], drawn.value)];
    }
    assert document == Document(children);
    assert forall s | s in slots && s.page >= 1 :: !Mismatched(overlays, s);
    return Ok(document);
  }

  lemma {:induction false} LastPageBounds(slots: seq<Slot>)
    ensures forall s | s in slots :: s.page <= LastPage(slots)
    ensures LastPage(slots) == 0 || exists s | s in slots :: s.page == LastPage(slots)
  {
    if slots != [] {
      LastPageBounds(slots[..|slots| - 1]);
      assert slots == slots[..|slots| - 1] + [slots[|slots| - 1]];
    }
  }

  // ---------------------------------------------------------------- conservation

  lemma JoinedAppend(pages: seq<seq<Node>>, page: seq<Node>)
    ensures Joined(pages + [page]) == Joined(pages) + page
  {
    assert (pages + [page])[..|pages|] == pages;
  }

  lemma JoinedGrowsLast(pages: seq<seq<Node>>, n: Node)
    requires pages != []
    ensures Joined(pages[|pages| - 1 := pages[|pages| - 1] + [n]]) == Joined(pages) + [n]
  {
    var last := |pages| - 1;
    assert pages[last := pages[last] + [n]] == pages[..last] + [pages[last] + [n]];
    JoinedAppend(pages[..last], pages[last] + [n]);
  }

  /** The page bodies joined are the top-level children in order, breaks and slots aside; one page more than breaks. */
  lemma {:induction false} PagesConserve(children: seq<Node>)
    ensures Joined(Pages(children)) == Flow(children) && |Pages(children)| == 1 + TopBreaks(children)
  {
    if children == [] {
      assert Joined([[]]) == [];
    } else {
      var front, last := children[..|children| - 1], children[|children| - 1];
      PagesConserve(front);
      if last.PageBreak? {
        JoinedAppend(Pages(front), []);
      } else if !last.SignatureSlot? {
        JoinedGrowsLast(Pages(front), last);
      }
    }
  }

  lemma {:induction false} PaddingAddsNothing(pages: seq<seq<Node>>, count: nat)
    ensures Joined(Padded(pages, count)) == Joined(pages)
  {
    if |pages| < count {
      var less: seq<seq<Node>> := Padded(pages, count - 1);
      PaddingAddsNothing(pages, count - 1);
      assert Padded(pages, count) == less + [[]];
      JoinedAppend(less, []);
      assert Joined(less) + [] == Joined(less);
    } else {
      assert Padded(pages, count) == pages;
    }
  }

  function Flows(document: seq<Page>): seq<seq<Node>> {
    seq(|document|, i requires 0 <= i < |document| => document[i].flow)
  }

  /** No content is lost, repeated or reordered by the layout. */
  lemma DocumentConserves(children: seq<Node>)
    ensures Joined(Flows(Document(children))) == Flow(children)
  {
    var padded := Padded(Pages(children), PageCount(children));
    assert Flows(Document(children)) == padded;
    PaddingAddsNothing(Pages(children), PageCount(children));
    PagesConserve(children);
  }

  lemma {:induction false} OnNumberCounts(slots: seq<Slot>, page: nat)
    ensures forall s :: multiset(OnNumber(slots, page))[s] == if s.page == page then multiset(slots)[s] else 0
  {
    if slots != [] {
      OnNumberCounts(slots[..|slots| - 1], page);
      assert slots == slots[..|slots| - 1] + [slots[|slots| - 1]];
    }
  }

  /** Every top-level slot is drawn on the page it names as often as it stands in the template, and on no other page. */
  lemma SlotsDrawnOnce(children: seq<Node>, s: Slot, i: nat)
    requires i < |Document(children)|
    ensures multiset(Document(children)[i].slots)[s] == if s.page == i + 1 then multiset(TopSlots(children))[s] else 0
    ensures s in TopSlots(children) && s.page >= 1 ==> s.page - 1 < |Document(children)|
  {
    OnNumberCounts(TopSlots(children), i + 1);
    LastPageBounds(TopSlots(children));
  }

  // ---------------------------------------------------------------- published templates

  lemma {:induction false} TopWithinNested(children: seq<Node>)
    ensures TopBreaks(children) <= NodesBreaks(children)
    ensures forall s | s in TopSlots(children) :: s in NodesSlots(children)
  {
    if children != [] {
      var front, last := children[..|children| - 1], children[|children| - 1];
      TopWithinNested(front);
      assert children == front + [last];
      WalkAppend(front, last);
    }
  }

  /** A published template never renders to more pages than the validator counted. */
  lemma PageCountBounded(ast: Ast)
    requires Published(ast)
    ensures |Document(ast.children)| == PageCount(ast.children) <= 1 + NodesBreaks(ast.children)
  {
    PagesConserve(ast.children);
    TopWithinNested(ast.children);
    LastPageBounds(TopSlots(ast.children));
  }

  /** After the renderer's checks the layout of a published template never meets an overlay on another page. */
  lemma NoOverlayMismatch(ast: Ast, positions: seq<Position>)
    requires Published(ast) && Renders(ast, positions)
    ensures forall s | s in TopSlots(ast.children) :: !Mismatched(Overlays(positions), s)
  {
    var required, overlays := Required(AstSlots(ast)), Overlays(positions);
    PlainHasNoSlots(ast.header);
    PlainHasNoSlots(ast.footer);
    assert AstSlots(ast) == NodesSlots(ast.children);
    TopWithinNested(ast.children);
    forall s | s in TopSlots(ast.children) && s.slotId in overlays
      ensures overlays[s.slotId].page == s.page
    {
      OverlaysAreRequired(required, overlays);
      var r :| r in required && r.slotId == s.slotId;
      DistinctIds(NodesSlots(ast.children), r, s);
    }
  }

  lemma DistinctIds(slots: seq<Slot>, a: Slot, b: Slot)
    requires DistinctSlots(slots) && a in slots && b in slots && a.slotId == b.slotId
    ensures a == b
  {
    var i :| 0 <= i < |slots| && slots[i] == a;
    var j :| 0 <= j < |slots| && slots[j] == b;
  }

  /** As many overlays as required ids, and one for each of them: every overlay belongs to a required slot. */
  lemma OverlaysAreRequired(required: seq<Slot>, overlays: map<string, Position>)
    requires (forall s | s in required :: s.slotId in overlays) && |Ids(required)| == |overlays|
    ensures forall id | id in overlays :: exists r | r in required :: r.slotId == id
  {
    assert Ids(required) <= overlays.Keys;
    SubsetOfSameSize(Ids(required), overlays.Keys);
  }

  lemma SubsetOfSameSize(a: set<string>, b: set<string>)
    requires a <= b && |a| == |b|
    ensures a == b
  {
    assert |b - a| == |b| - |a|;
  }

  /**
   The whole chain for a published template: positions the server accepted over the stored JSON pass the finalizer's
   gate, all checks of the final renderer, and the layout.
   */
  lemma AcceptedSigningRenders(v: Json, ast: Ast, num: Numbers, positions: seq<Position>)
    requires AstReadsAs(v, ast, num) && Published(ast) && PositionsAccepted(positions, AllSlots(v, num))
    ensures PlacementsValid(positions, RequiredSlots(v, num)) && Renders(ast, positions)
    ensures forall s | s in TopSlots(ast.children) :: !Mismatched(Overlays(positions), s)
  {
    RequiredWalksAgree(v, ast, num);
    FinalizerWalk(v, num);
    AcceptedIsValid(positions, AllSlots(v, num));
    AcceptedRenders(positions, AllSlots(v, num), ast);
    PlainHasNoSlots(ast.header);
    PlainHasNoSlots(ast.footer);
    assert AstSlots(ast) == NodesSlots(ast.children);
    SameMembers(Required(AllSlots(v, num)), Required(AstSlots(ast)));
    NoOverlayMismatch(ast, positions);
  }
}
