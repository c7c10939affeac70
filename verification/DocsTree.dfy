/** The documentation tree: one walk over the navigation collects the pages, another renders the tree and looks
    every page up among the collected ones. */
module DocsTree {
  import opened Sequences
  import opened Wrappers

  /** What the walks can tell apart in the navigation. `tab` and `group` are names, present when they are strings. */
  datatype Json =
    | Text(text: string)
    | List(items: seq<Json>)
    | Record(tab: Option<string>, group: Option<string>, groups: Option<Json>, pages: Option<Json>)
    | Other

  datatype Line = Heading(indent: nat, name: string) | Page(indent: nat, page: string)

  predicate IsList(j: Option<Json>) {
    j.Some? && j.value.List?
  }

  // ---------- what the two walks meet ----------

  // The pages the collecting walk meets, in order.
  function Visited(node: Json): seq<string> {
    match node
    case Text(page) => [page]
    case List(items) => VisitedAll(items)
    case Record(_, _, groups, pages) =>
      (if IsList(groups) then Visited(groups.value) else []) + (if IsList(pages) then Visited(pages.value) else [])
    case Other => []
  }

  function VisitedAll(items: seq<Json>): seq<string> {
    if items == [] then [] else Visited(items[0]) + VisitedAll(items[1..])
  }

  // The lines the rendering walk writes, if every page is known.
  function Lines(node: Json, indent: nat): seq<Line> {
    match node
    case Text(page) => [Page(indent, page)]
    case List(items) => LinesAll(items, indent)
    case Record(tab, group, groups, pages) =>
      if tab.Some? && IsList(groups) then [Heading(indent, tab.value)] + Lines(groups.value, indent + 1)
      else if group.Some? && IsList(pages) then [Heading(indent, group.value)] + Lines(pages.value, indent + 1)
      else (if IsList(groups) then Lines(groups.value, indent) else []) + (if IsList(pages) then Lines(pages.value, indent) else [])
    case Other => []
  }

  function LinesAll(items: seq<Json>, indent: nat): seq<Line> {
    if items == [] then [] else Lines(items[0], indent) + LinesAll(items[1..], indent)
  }

  predicate AllKnown(lines: seq<Line>, known: set<string>) {
    forall i :: 0 <= i < |lines| && lines[i].Page? ==> lines[i].page in known
  }

  // ---------- the collecting walk ----------

  class Collector {
    var out: seq<string>
    var seen: set<string>
    ghost var met: seq<string>

    ghost predicate Valid()
      reads this
    {
      out == Firsts(met) && seen == (set p | p in met)
    }

    constructor ()
      ensures Valid() && met == []
    {
      out, seen, met := [], {}, [];
    }

    method AddPage(page: string)
      requires Valid()
      modifies this
      ensures Valid() && met == old(met) + [page]
    {
      if page !in seen {
        seen := seen + {page};
        out := out + [page];
      }
      met := met + [page];
      assert met[..|met| - 1] == old(met);
    }

    method ExtractDocsPagesFromNav(node: Json)
      requires Valid()
      modifies this
      ensures Valid() && met == old(met) + Visited(node)
      decreases node, 0
    {
      match node
      case Text(page) => AddPage(page);
      case List(items) => ExtractAll(items);
      case Record(_, _, groups, pages) =>
        ghost var inGroups := if IsList(groups) then Visited(groups.value) else [];
        if IsList(groups) { ExtractDocsPagesFromNav(groups.value); }
        assert met == old(met) + inGroups;
        if IsList(pages) { ExtractDocsPagesFromNav(pages.value); }
      case Other =>
    }

    method ExtractAll(items: seq<Json>)
      requires Valid()
      modifies this
      ensures Valid() && met == old(met) + VisitedAll(items)
      decreases items, 1
    {
      for i := 0 to |items|
        invariant Valid() && met + VisitedAll(items[i..]) == old(met) + VisitedAll(items)
      {
        assert items[i..][0] == items[i] && items[i..][1..] == items[i + 1..];
        ExtractDocsPagesFromNav(items[i]);
      }
    }
  }

  // The pages met under the `groups` of every tab.
  function Under(tab: Json): seq<string> {
    if tab.Record? && tab.groups.Some? then Visited(tab.groups.value) else []
  }

  function Collected(tabs: seq<Json>): seq<string> {
    if tabs == [] then [] else Collected(tabs[..|tabs| - 1]) + Under(tabs[|tabs| - 1])
  }

  // Every page that is met once, in the order of the first visits.
  method ExtractDocsPages(tabs: seq<Json>) returns (pages: seq<string>)
    ensures pages == Firsts(Collected(tabs))
    ensures Distinct(pages) && forall p :: p in pages <==> p in Collected(tabs)
    ensures forall i, j :: 0 <= i < j < |pages| ==> FirstIndex(Collected(tabs), pages[i]) < FirstIndex(Collected(tabs), pages[j])
  {
    var collector := new Collector();
    for i := 0 to |tabs|
      invariant fresh(collector) && collector.Valid() && collector.met == Collected(tabs[..i])
    {
      assert tabs[..i + 1][..i] == tabs[..i];
      if tabs[i].Record? && tabs[i].groups.Some? { collector.ExtractDocsPagesFromNav(tabs[i].groups.value); }
    }
    assert tabs[..|tabs|] == tabs;
    pages := collector.out;
    FirstsIs(Collected(tabs));
  }

  // ---------- the rendering walk ----------

  class Renderer {
    const known: set<string>
    var lines: seq<Line>

    constructor (pages: seq<string>)
      ensures known == (set p | p in pages) && lines == []
    {
      known, lines := (set p | p in pages), [];
    }

    // Returns false where the program throws because a page is not known.
    method RenderDocsTreeNode(node: Json, indent: nat) returns (ok: bool)
      modifies this`lines
      ensures ok <==> AllKnown(Lines(node, indent), known)
      ensures ok ==> lines == old(lines) + Lines(node, indent)
      decreases node, 2
    {
      ok := true;
      match node
      case Text(page) =>
        if page !in known {
          assert Lines(node, indent)[0].page !in known;
          return false;
        }
        lines := lines + [Page(indent, page)];
      case List(items) => ok := RenderAll(items, indent);
      case Record(_, _, _, _) => ok := RenderRecord(node, indent);
      case Other =>
    }

    method RenderRecord(node: Json, indent: nat) returns (ok: bool)
      requires node.Record?
      modifies this`lines
      ensures ok <==> AllKnown(Lines(node, indent), known)
      ensures ok ==> lines == old(lines) + Lines(node, indent)
      decreases node, 0
    {
      var groups, pages := node.groups, node.pages;
      if node.tab.Some? && IsList(groups) {
        lines := lines + [Heading(indent, node.tab.value)];
        KnownAppend([Heading(indent, node.tab.value)], Lines(groups.value, indent + 1), known);
        ok := RenderDocsTreeNode(groups.value, indent + 1);
        return;
      }
      if node.group.Some? && IsList(pages) {
        lines := lines + [Heading(indent, node.group.value)];
        KnownAppend([Heading(indent, node.group.value)], Lines(pages.value, indent + 1), known);
        ok := RenderDocsTreeNode(pages.value, indent + 1);
        return;
      }
      ok := true;
      KnownAppend(if IsList(groups) then Lines(groups.value, indent) else [],
                  if IsList(pages) then Lines(pages.value, indent) else [], known);
      if IsList(groups) { ok := RenderDocsTreeNode(groups.value, indent); }
      if ok && IsList(pages) { ok := RenderDocsTreeNode(pages.value, indent); }
    }

    method RenderAll(items: seq<Json>, indent: nat) returns (ok: bool)
      modifies this`lines
      ensures ok <==> AllKnown(LinesAll(items, indent), known)
      ensures ok ==> lines == old(lines) + LinesAll(items, indent)
      decreases items, 3
    {
      for i := 0 to |items|
        invariant lines + LinesAll(items[i..], indent) == old(lines) + LinesAll(items, indent)
        invariant AllKnown(LinesAll(items[i..], indent), known) <==> AllKnown(LinesAll(items, indent), known)
      {
        assert items[i..][0] == items[i] && items[i..][1..] == items[i + 1..];
        KnownAppend(Lines(items[i], indent), LinesAll(items[i + 1..], indent), known);
        ok := RenderDocsTreeNode(items[i], indent);
        if !ok { return; }
      }
      ok := true;
    }
  }

  // Collects, then renders: the tree, or None where the program throws.
  method RenderDocsTree(tabs: seq<Json>) returns (tree: Option<seq<Line>>)
    ensures tree.Some? <==> AllKnown(LinesAll(tabs, 0), set p | p in Collected(tabs))
    ensures tree.Some? ==> tree.value == LinesAll(tabs, 0)
  {
    var pages := ExtractDocsPages(tabs);
    var renderer := new Renderer(pages);
    assert renderer.known == (set p | p in Collected(tabs));
    var ok := renderer.RenderAll(tabs, 0);
    tree := if ok then Some(renderer.lines) else None;
  }

  lemma CollectedSnoc(front: seq<Json>, last: Json)
    ensures Collected(front + [last]) == Collected(front) + Under(last)
  {
    assert (front + [last])[..|front|] == front;
  }

  lemma Associates(x: seq<string>, y: seq<string>, z: seq<string>)
    ensures (x + y) + z == x + (y + z)
  {
  }

  lemma {:induction false} CollectedAppend(a: seq<Json>, b: seq<Json>)
    ensures Collected(a + b) == Collected(a) + Collected(b)
  {
    if b == [] {
      assert a + b == a;
    } else {
      var front, last := b[..|b| - 1], b[|b| - 1];
      CollectedAppend(a, front);
      assert b == front + [last] && a + b == (a + front) + [last];
      CollectedSnoc(a + front, last);
      CollectedSnoc(front, last);
      Associates(Collected(a), Collected(front), Under(last));
    }
  }

  // Whatever is under the groups of a tab that has any, a list or not, and nothing else of it.
  lemma UnderIs(tab: Json)
    ensures tab.Record? && tab.groups.Some? ==> Under(tab) == Visited(tab.groups.value)
    ensures !(tab.Record? && tab.groups.Some?) ==> Under(tab) == []
  {
  }

  // The pages are collected tab by tab.
  lemma TabsAreCollected(a: seq<Json>, tab: Json, b: seq<Json>)
    ensures Collected(a + [tab] + b) == Collected(a) + Under(tab) + Collected(b)
  {
    CollectedSnoc(a, tab);
    CollectedAppend(a + [tab], b);
  }

  lemma KnownAppend(a: seq<Line>, b: seq<Line>, known: set<string>)
    ensures AllKnown(a + b, known) <==> AllKnown(a, known) && AllKnown(b, known)
  {
    if AllKnown(a + b, known) {
      forall i | 0 <= i < |a| && a[i].Page? ensures a[i].page in known { assert (a + b)[i] == a[i]; }
      forall i | 0 <= i < |b| && b[i].Page? ensures b[i].page in known { assert (a + b)[|a| + i] == b[i]; }
    }
  }

  // ---------- when the rendering succeeds ----------

  // Every page that is looked up in a node was met in it by the collecting walk.
  lemma {:induction false} LookedUpIsVisited(node: Json, indent: nat)
    ensures forall l :: l in Lines(node, indent) && l.Page? ==> l.page in Visited(node)
    decreases node, 0
  {
    match node
    case Text(_) =>
    case List(items) => LookedUpAllVisited(items, indent);
    case Record(_, _, groups, pages) =>
      if IsList(groups) {
        LookedUpIsVisited(groups.value, indent);
        LookedUpIsVisited(groups.value, indent + 1);
      }
      if IsList(pages) {
        LookedUpIsVisited(pages.value, indent);
        LookedUpIsVisited(pages.value, indent + 1);
      }
    case Other =>
  }

  lemma {:induction false} LookedUpAllVisited(items: seq<Json>, indent: nat)
    ensures forall l :: l in LinesAll(items, indent) && l.Page? ==> l.page in VisitedAll(items)
    decreases items, 1
  {
    if items != [] {
      LookedUpIsVisited(items[0], indent);
      LookedUpAllVisited(items[1..], indent);
    }
  }

  // What a tab renders outside its `groups`, where the collecting walk never looks.
  function Stray(tab: Json): seq<Line> {
    match tab
    case Record(name, group, groups, pages) =>
      if name.Some? && IsList(groups) then []
      else if group.Some? && IsList(pages) then Lines(pages.value, 1)
      else if IsList(pages) then Lines(pages.value, 0)
      else []
    case _ => Lines(tab, 0)
  }

  predicate StraysKnown(tabs: seq<Json>, known: set<string>) {
    forall i :: 0 <= i < |tabs| ==> AllKnown(Stray(tabs[i]), known)
  }

  lemma TabIsKnown(tab: Json, known: set<string>)
    requires forall p :: p in Under(tab) ==> p in known
    ensures AllKnown(Lines(tab, 0), known) <==> AllKnown(Stray(tab), known)
  {
    if tab.Record? {
      if IsList(tab.groups) {
        LookedUpIsVisited(tab.groups.value, 0);
        LookedUpIsVisited(tab.groups.value, 1);
        KnownFrom(Lines(tab.groups.value, 0), tab.groups.value, known);
        KnownFrom(Lines(tab.groups.value, 1), tab.groups.value, known);
      }
      if tab.tab.Some? && IsList(tab.groups) {
        KnownAppend([Heading(0, tab.tab.value)], Lines(tab.groups.value, 1), known);
      } else if tab.group.Some? && IsList(tab.pages) {
        KnownAppend([Heading(0, tab.group.value)], Lines(tab.pages.value, 1), known);
      } else {
        KnownAppend(if IsList(tab.groups) then Lines(tab.groups.value, 0) else [],
                    if IsList(tab.pages) then Lines(tab.pages.value, 0) else [], known);
      }
    }
  }

  lemma KnownFrom(lines: seq<Line>, node: Json, known: set<string>)
    requires forall l :: l in lines && l.Page? ==> l.page in Visited(node)
    requires forall p :: p in Visited(node) ==> p in known
    ensures AllKnown(lines, known)
  {
    forall i | 0 <= i < |lines| && lines[i].Page? ensures lines[i].page in known { assert lines[i] in lines; }
  }

  lemma {:induction false} UnderIsCollected(tabs: seq<Json>, i: nat)
    requires i < |tabs|
    ensures forall p :: p in Under(tabs[i]) ==> p in Collected(tabs)
  {
    if i < |tabs| - 1 { UnderIsCollected(tabs[..|tabs| - 1], i); }
  }

  lemma {:induction false} TabsAreKnown(tabs: seq<Json>, known: set<string>)
    requires forall i :: 0 <= i < |tabs| ==> (AllKnown(Lines(tabs[i], 0), known) <==> AllKnown(Stray(tabs[i]), known))
    ensures AllKnown(LinesAll(tabs, 0), known) <==> StraysKnown(tabs, known)
  {
    if tabs != [] {
      TabsAreKnown(tabs[1..], known);
      KnownAppend(Lines(tabs[0], 0), LinesAll(tabs[1..], 0), known);
      StraysSplit(tabs, known);
    }
  }

  lemma StraysSplit(tabs: seq<Json>, known: set<string>)
    requires tabs != []
    ensures StraysKnown(tabs, known) <==> AllKnown(Stray(tabs[0]), known) && StraysKnown(tabs[1..], known)
  {
    if AllKnown(Stray(tabs[0]), known) && StraysKnown(tabs[1..], known) {
      forall i | 0 <= i < |tabs| ensures AllKnown(Stray(tabs[i]), known) {
        if i > 0 { assert tabs[1..][i - 1] == tabs[i]; }
      }
    }
    if StraysKnown(tabs, known) {
      forall i | 0 <= i < |tabs[1..]| ensures AllKnown(Stray(tabs[1..][i]), known) { assert tabs[1..][i] == tabs[i + 1]; }
    }
  }

  // The rendering of all tabs misses no page if and only if every page outside the tabs' groups was also collected
  // from some group.
  lemma RenderingSucceedsIff(tabs: seq<Json>)
    ensures var known := set p | p in Collected(tabs);
      AllKnown(LinesAll(tabs, 0), known) <==> StraysKnown(tabs, known)
  {
    var known := set p | p in Collected(tabs);
    forall i | 0 <= i < |tabs| ensures AllKnown(Lines(tabs[i], 0), known) <==> AllKnown(Stray(tabs[i]), known) {
      UnderIsCollected(tabs, i);
      TabIsKnown(tabs[i], known);
    }
    TabsAreKnown(tabs, known);
  }

  // Tabs that hold pages only under groups always render.
  lemma GroupedTabsRender(tabs: seq<Json>)
    requires forall i :: 0 <= i < |tabs| ==> tabs[i].Record? && !IsList(tabs[i].pages)
    ensures AllKnown(LinesAll(tabs, 0), set p | p in Collected(tabs))
  {
    RenderingSucceedsIff(tabs);
  }

  // ---------- what is rendered ----------

  function PagesOf(lines: seq<Line>): seq<string> {
    if lines == [] then [] else (if lines[0].Page? then [lines[0].page] else []) + PagesOf(lines[1..])
  }

  lemma {:induction false} PagesAppend(a: seq<Line>, b: seq<Line>)
    ensures PagesOf(a + b) == PagesOf(a) + PagesOf(b)
  {
    if a == [] {
      assert a + b == b;
    } else {
      assert (a + b)[1..] == a[1..] + b;
      PagesAppend(a[1..], b);
    }
  }

  // No named record hides a list behind the one it is named for.
  predicate NothingHidden(node: Json) {
    match node
    case List(items) => NothingHiddenIn(items)
    case Record(tab, group, groups, pages) =>
      && (IsList(groups) && IsList(pages) ==> tab.None? && group.None?)
      && (IsList(groups) ==> NothingHidden(groups.value)) && (IsList(pages) ==> NothingHidden(pages.value))
    case _ => true
  }

  predicate NothingHiddenIn(items: seq<Json>) {
    items == [] || (NothingHidden(items[0]) && NothingHiddenIn(items[1..]))
  }

  // Then the pages are rendered in exactly the order in which they are visited, each as often.
  lemma {:induction false} RenderedIsVisited(node: Json, indent: nat)
    requires NothingHidden(node)
    ensures PagesOf(Lines(node, indent)) == Visited(node)
    decreases node, 0
  {
    match node
    case Text(page) => assert [Page(indent, page)][1..] == [];
    case List(items) => AllRenderedIsVisited(items, indent);
    case Record(tab, group, groups, pages) =>
      if IsList(groups) {
        RenderedIsVisited(groups.value, indent);
        RenderedIsVisited(groups.value, indent + 1);
      }
      if IsList(pages) {
        RenderedIsVisited(pages.value, indent);
        RenderedIsVisited(pages.value, indent + 1);
      }
      if tab.Some? && IsList(groups) {
        PagesAppend([Heading(indent, tab.value)], Lines(groups.value, indent + 1));
      } else if group.Some? && IsList(pages) {
        PagesAppend([Heading(indent, group.value)], Lines(pages.value, indent + 1));
      } else {
        PagesAppend(if IsList(groups) then Lines(groups.value, indent) else [], if IsList(pages) then Lines(pages.value, indent) else []);
      }
    case Other =>
  }

  lemma {:induction false} AllRenderedIsVisited(items: seq<Json>, indent: nat)
    requires NothingHiddenIn(items)
    ensures PagesOf(LinesAll(items, indent)) == VisitedAll(items)
    decreases items, 1
  {
    if items != [] {
      RenderedIsVisited(items[0], indent);
      AllRenderedIsVisited(items[1..], indent);
      PagesAppend(Lines(items[0], indent), LinesAll(items[1..], indent));
    }
  }

  function DeeperLine(l: Line): Line {
    match l case Heading(indent, name) => Heading(indent + 1, name) case Page(indent, page) => Page(indent + 1, page)
  }

  // The same lines one level deeper.
  function Deeper(lines: seq<Line>): seq<Line> {
    if lines == [] then [] else [DeeperLine(lines[0])] + Deeper(lines[1..])
  }

  lemma {:induction false} DeeperAppend(a: seq<Line>, b: seq<Line>)
    ensures Deeper(a + b) == Deeper(a) + Deeper(b)
  {
    if a == [] {
      assert a + b == b;
    } else {
      assert (a + b)[1..] == a[1..] + b;
      DeeperAppend(a[1..], b);
    }
  }

  lemma DeeperOne(l: Line)
    ensures Deeper([l]) == [DeeperLine(l)]
  {
    assert [l][1..] == [];
  }

  // A tree one level deeper is the same tree.
  lemma {:induction false} DeeperTree(node: Json, indent: nat)
    ensures Lines(node, indent + 1) == Deeper(Lines(node, indent))
    decreases node, 1
  {
    match node
    case Text(page) => DeeperOne(Page(indent, page));
    case List(items) => DeeperTrees(items, indent);
    case Record(_, _, _, _) => DeeperRecord(node, indent);
    case Other =>
  }

  lemma {:induction false} DeeperRecord(node: Json, indent: nat)
    requires node.Record?
    ensures Lines(node, indent + 1) == Deeper(Lines(node, indent))
    decreases node, 0
  {
    var groups, pages := node.groups, node.pages;
    if node.tab.Some? && IsList(groups) {
      DeeperTree(groups.value, indent + 1);
      DeeperOne(Heading(indent, node.tab.value));
      DeeperAppend([Heading(indent, node.tab.value)], Lines(groups.value, indent + 1));
    } else if node.group.Some? && IsList(pages) {
      DeeperTree(pages.value, indent + 1);
      DeeperOne(Heading(indent, node.group.value));
      DeeperAppend([Heading(indent, node.group.value)], Lines(pages.value, indent + 1));
    } else {
      if IsList(groups) { DeeperTree(groups.value, indent); }
      if IsList(pages) { DeeperTree(pages.value, indent); }
      DeeperAppend(if IsList(groups) then Lines(groups.value, indent) else [], if IsList(pages) then Lines(pages.value, indent) else []);
    }
  }

  lemma {:induction false} DeeperTrees(items: seq<Json>, indent: nat)
    ensures LinesAll(items, indent + 1) == Deeper(LinesAll(items, indent))
    decreases items, 2
  {
    if items != [] {
      DeeperTree(items[0], indent);
      DeeperTrees(items[1..], indent);
      DeeperAppend(Lines(items[0], indent), LinesAll(items[1..], indent));
    }
  }

  // A named tab or group is a heading with its own list one level below it; without a name its lists stand where it is.
  lemma RecordsAreHeaded(node: Json, indent: nat)
    requires node.Record?
    ensures node.tab.Some? && IsList(node.groups) ==>
              Lines(node, indent) == [Heading(indent, node.tab.value)] + Deeper(Lines(node.groups.value, indent))
    ensures node.group.Some? && IsList(node.pages) && !(node.tab.Some? && IsList(node.groups)) ==>
              Lines(node, indent) == [Heading(indent, node.group.value)] + Deeper(Lines(node.pages.value, indent))
    ensures node.tab.None? && node.group.None? && IsList(node.groups) && IsList(node.pages) ==>
              Lines(node, indent) == Lines(node.groups.value, indent) + Lines(node.pages.value, indent)
  {
    if IsList(node.groups) { DeeperTree(node.groups.value, indent); }
    if IsList(node.pages) { DeeperTree(node.pages.value, indent); }
  }
}
