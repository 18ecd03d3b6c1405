/** The migration of stored documents from format 3.2 to 3.3 (0003_fidus_3_3.py). */
module Migration {
  import opened Prelude
  import opened Decimals
  import opened Trees

  // ---- What one node becomes

  datatype Sort = Listing | Table | EmptyCell | Figure | Footnote | Plain

  function SortOf(n: Node): Sort {
    if n.kind in {Some("bullet_list"), Some("ordered_list")} then Listing
    else if n.kind == Some("table") && n.content.Kids? then Table
    else if n.kind == Some("table_cell") && (n.content.Absent? || n.content.nodes == []) then EmptyCell
    else if n.kind == Some("figure") then Figure
    else if n.kind == Some("footnote") && AttrsOf(n).footnote.Kids? then Footnote
    else Plain
  }

  predicate Listed(n: Node) {
    SortOf(n) in {Listing, Table}
  }

  predicate HasWords(v: Option<Val>) {
    v.Some? && v.value.Str? && v.value.s != ""
  }

  function Body(a: Attrs): Node {
    if a.image.Some? && a.image.value != Flag(false)
    then Bare("image").(attrs := Some(NO_ATTRS.(image := a.image)))
    else Bare("figure_equation").(attrs := Some(NO_ATTRS.(equation :=
           if a.equation.Some? then a.equation else Some(Str("")))))
  }

  function CaptionNode(a: Attrs): Node {
    if HasWords(a.caption)
    then Inner("figure_caption", [Bare("text").(text := Some(a.caption.value.s))])
    else Bare("figure_caption")
  }

  /** A figure whose attributes are still those of 3.2. */
  function NewFigure(n: Node): Node {
    var a := AttrsOf(n);
    var category := if a.figureCategory.Some? then a.figureCategory else Some(Str("none"));
    n.(attrs := Some(a.(category := category, figureCategory := None, image := None, equation := None,
                        caption := Some(Flag(HasWords(a.caption))))),
       content := Kids(if category == Some(Str("table")) then [CaptionNode(a), Body(a)] else [Body(a), CaptionNode(a)]))
  }

  function WithId(n: Node, letter: string, k: nat): Node {
    n.(attrs := Some(AttrsOf(n).(id := Some(letter + Padded(k)))))
  }

  function NewTable(n: Node, k: nat): Node
    requires n.content.Kids?
  {
    var m := WithId(n, "T", k);
    m.(attrs := Some(m.attrs.value.(caption := Some(Flag(false)))),
       content := Kids([Bare("table_caption"), Inner("table_body", n.content.nodes)]))
  }

  function Rewrite(n: Node, c: nat): (Node, nat) {
    match SortOf(n)
    case Listing => (WithId(n, "L", c + 1), c + 1)
    case Table => (NewTable(n, c + 1), c + 1)
    case EmptyCell => (n.(content := Kids([Bare("paragraph")])), c)
    case Figure => (NewFigure(n), c)
    case Footnote => (n, c)
    case Plain => (n, c)
  }

  // ---- The recursion, which descends into what the rewriting has just put there

  function Allowance(sort: Sort): nat {
    match sort case Table => 4 case EmptyCell => 3 case Figure => 8 case _ => 1
  }

  function Weight(n: Node): nat
    decreases n
  {
    Allowance(SortOf(n)) + (if n.contents.Some? then Weight(n.contents.value) else 0)
    + (if n.attrs.Some? then KidsWeight(n.attrs.value.footnote) + KidsWeight(n.attrs.value.initial) else 0)
    + KidsWeight(n.content)
  }

  function KidsWeight(k: Kids): nat
    decreases k
  {
    if k.Absent? then 0 else Total(k.nodes)
  }

  function Total(ns: seq<Node>): nat
    decreases ns
  {
    if ns == [] then 0 else Weight(ns[0]) + Total(ns[1..])
  }

  lemma TotalOfTwo(a: Node, b: Node)
    ensures Total([a, b]) == Weight(a) + Weight(b)
  {
    assert [a, b][1..] == [b];
    assert [b][1..] == [];
    assert Total([b]) == Weight(b) + Total([]);
  }

  lemma RewriteKeepsLists(n: Node, c: nat)
    ensures var m := Rewrite(n, c).0;
      && AttrsOf(m).footnote == AttrsOf(n).footnote && AttrsOf(m).initial == AttrsOf(n).initial
      && (n.attrs.Some? ==> m.attrs.Some?)
      && m.kind == n.kind && m.text == n.text && m.marks == n.marks && m.contents == n.contents
  {
  }

  lemma RewriteIgnoresContents(n: Node, contents: Option<Node>, c: nat)
    ensures Rewrite(n.(contents := contents), c) == (Rewrite(n, c).0.(contents := contents), Rewrite(n, c).1)
    ensures Rewrite(n, c).1 == if Listed(n) then c + 1 else c
  {
  }

  lemma ContentIsLighter(n: Node, c: nat)
    ensures KidsWeight(Rewrite(n, c).0.content) < Allowance(SortOf(n)) + KidsWeight(n.content)
  {
    match SortOf(n)
    case Table => TotalOfTwo(Bare("table_caption"), Inner("table_body", n.content.nodes));
    case EmptyCell => assert [Bare("paragraph")][1..] == [];
    case Figure => FigureWeight(n);
    case _ =>
  }

  /** Wrapping a table's content, filling a cell or building a figure adds nodes, but never weight. */
  lemma RewritingIsLighter(n: Node, contents: Option<Node>, c: nat)
    ensures var m := Rewrite(n.(contents := contents), c).0;
      KidsWeight(m.content) + KidsWeight(AttrsOf(m).footnote) + KidsWeight(AttrsOf(m).initial) < Weight(n)
  {
    RewriteIgnoresContents(n, contents, c);
    RewriteKeepsLists(n, c);
    ContentIsLighter(n, c);
    hide Rewrite, SortOf, Allowance;
  }

  lemma FigureWeight(n: Node)
    ensures KidsWeight(NewFigure(n).content) <= 4
  {
    var a := AttrsOf(n);
    var t := Bare("text").(text := Some(if HasWords(a.caption) then a.caption.value.s else ""));
    assert [t][1..] == [];
    assert Total([t]) == Weight(t) == 1;
    assert Weight(CaptionNode(a)) <= 2;
    assert Weight(Body(a)) == 1;
    TotalOfTwo(CaptionNode(a), Body(a));
    TotalOfTwo(Body(a), CaptionNode(a));
  }

  function Assemble(m: Node, footnote: Kids, content: Kids, initial: Kids): Node {
    if m.attrs.Some?
    then m.(attrs := Some(m.attrs.value.(footnote := footnote, initial := initial)), content := content)
    else m.(content := content)
  }

  /** `update_node`, with the counter threaded through. */
  function UpdateNode(n: Node, c: nat): (Node, nat)
    decreases Weight(n), 0, 0
  {
    var (contents, c1) := if n.contents.None? then (None, c)
                          else var (r, k) := UpdateNode(n.contents.value, c); (Some(r), k);
    RewritingIsLighter(n, contents, c1);
    var (m, c2) := Rewrite(n.(contents := contents), c1);
    var (footnote, c3) := if SortOf(n) == Footnote then UpdateKids(AttrsOf(m).footnote, c2)
                          else (AttrsOf(m).footnote, c2);
    var (content, c4) := UpdateKids(m.content, c3);
    var (initial, c5) := UpdateKids(AttrsOf(m).initial, c4);
    (Assemble(m, footnote, content, initial), c5)
  }

  function UpdateKids(k: Kids, c: nat): (Kids, nat)
    decreases KidsWeight(k), 2, 0
  {
    if k.Absent? then (k, c) else var (ns, c1) := UpdateAll(k.nodes, c); (Kids(ns), c1)
  }

  function UpdateAll(ns: seq<Node>, c: nat): (seq<Node>, nat)
    decreases Total(ns), 1, |ns|
  {
    if ns == [] then ([], c)
    else
      var (m, c1) := UpdateNode(ns[0], c);
      var (ms, c2) := UpdateAll(ns[1..], c1);
      ([m] + ms, c2)
  }

  // ---- The same result without descending into new nodes

  /** How many lists and tables the migration finds in a node. */
  function Count(n: Node): nat
    decreases n, 1
  {
    CountInContents(n) + (if Listed(n) then 1 else 0) + CountInFootnote(n) + CountInContent(n) + CountInInitial(n)
  }

  function CountInContents(n: Node): nat
    decreases n, 0
  {
    if n.contents.None? then 0 else Count(n.contents.value)
  }

  function CountInFootnote(n: Node): nat
    decreases n, 0
  {
    if SortOf(n) == Footnote then CountInKids(n.attrs.value.footnote) else 0
  }

  function CountInContent(n: Node): nat
    decreases n, 0
  {
    if SortOf(n) in {EmptyCell, Figure} then 0 else CountInKids(n.content)
  }

  function CountInInitial(n: Node): nat
    decreases n, 0
  {
    if n.attrs.None? then 0 else CountInKids(n.attrs.value.initial)
  }

  function CountInKids(k: Kids): nat
    decreases k
  {
    if k.Absent? then 0 else CountInAll(k.nodes)
  }

  function CountInAll(ns: seq<Node>): nat
    decreases ns
  {
    if ns == [] then 0 else Count(ns[0]) + CountInAll(ns[1..])
  }

  /** The counter when the node's own id is given out, and at its footnote, its content and its initial content. */
  function AtId(n: Node, c: nat): nat { c + CountInContents(n) }
  function AtFootnote(n: Node, c: nat): nat { AtId(n, c) + if Listed(n) then 1 else 0 }
  function AtContent(n: Node, c: nat): nat { AtFootnote(n, c) + CountInFootnote(n) }
  function AtInitial(n: Node, c: nat): nat { AtContent(n, c) + CountInContent(n) }

  function Migrated(n: Node, c: nat): Node
    decreases n, 1
  {
    Node(n.kind, n.text, n.marks, NewAttrs(n, c), NewContent(n, AtContent(n, c)), NewContents(n, c))
  }

  function NewContents(n: Node, c: nat): Option<Node>
    decreases n, 0
  {
    if n.contents.None? then None else Some(Migrated(n.contents.value, c))
  }

  function NewAttrs(n: Node, c: nat): Option<Attrs>
    decreases n, 0
  {
    var a := Rewrite(n, AtId(n, c)).0.attrs;
    if a.None? then None
    else if n.attrs.None? then a
    else Some(a.value.(
      footnote := if SortOf(n) == Footnote then MigratedKids(n.attrs.value.footnote, AtFootnote(n, c))
                  else a.value.footnote,
      initial := MigratedKids(n.attrs.value.initial, AtInitial(n, c))))
  }

  function NewContent(n: Node, c: nat): Kids
    decreases n, 0
  {
    match SortOf(n)
    case Table => Kids([Bare("table_caption"), Inner("table_body", MigratedKids(n.content, c).nodes)])
    case EmptyCell => Kids([Bare("paragraph")])
    case Figure => NewFigure(n).content
    case _ => MigratedKids(n.content, c)
  }

  function MigratedKids(k: Kids, c: nat): (r: Kids)
    ensures r.Kids? == k.Kids? && (k.Kids? ==> |r.nodes| == |k.nodes|)
    decreases k
  {
    if k.Absent? then k else Kids(MigratedAll(k.nodes, c))
  }

  function MigratedAll(ns: seq<Node>, c: nat): (r: seq<Node>)
    ensures |r| == |ns|
    decreases ns
  {
    if ns == [] then [] else [Migrated(ns[0], c)] + MigratedAll(ns[1..], c + Count(ns[0]))
  }

  lemma UpdateOne(n: Node, c: nat)
    ensures UpdateAll([n], c) == ([UpdateNode(n, c).0], UpdateNode(n, c).1)
  {
    hide UpdateNode;
    var (m, c1) := UpdateNode(n, c);
    assert [n][1..] == [];
    assert UpdateAll([], c1) == ([], c1);
    assert [m] + [] == [m];
  }

  lemma UpdateTwo(a: Node, b: Node, c: nat)
    ensures var (a', c1) := UpdateNode(a, c);
      var (b', c2) := UpdateNode(b, c1);
      UpdateAll([a, b], c) == ([a', b'], c2)
  {
    hide UpdateNode;
    var (a', c1) := UpdateNode(a, c);
    UpdateOne(b, c1);
    assert [a, b][1..] == [b];
    assert [a'] + [UpdateNode(b, c1).0] == [a', UpdateNode(b, c1).0];
  }

  lemma BareStays(kind: string, c: nat)
    requires SortOf(Bare(kind)) == Plain
    ensures UpdateNode(Bare(kind), c) == (Bare(kind), c)
  {
  }

  /** The new children of a figure are left alone when the recursion reaches them. */
  lemma FigureStays(n: Node, c: nat)
    ensures UpdateKids(NewFigure(n).content, c) == (NewFigure(n).content, c)
  {
    var a := AttrsOf(n);
    BodyStays(a, c);
    CaptionStays(a, c);
    hide UpdateNode;
    UpdateTwo(Body(a), CaptionNode(a), c);
    UpdateTwo(CaptionNode(a), Body(a), c);
  }

  lemma BodyStays(a: Attrs, c: nat)
    ensures UpdateNode(Body(a), c) == (Body(a), c)
  {
  }

  lemma CaptionStays(a: Attrs, c: nat)
    ensures UpdateNode(CaptionNode(a), c) == (CaptionNode(a), c)
  {
    if HasWords(a.caption) {
      var t := Bare("text").(text := Some(a.caption.value.s));
      UpdateOne(t, c);
      assert UpdateNode(t, c) == (t, c);
    }
  }

  lemma BodyNodeUpdates(ns: seq<Node>, c: nat)
    ensures UpdateNode(Inner("table_body", ns), c) == (Inner("table_body", UpdateAll(ns, c).0), UpdateAll(ns, c).1)
  {
  }

  lemma TableUpdates(ns: seq<Node>, c: nat)
    ensures UpdateKids(Kids([Bare("table_caption"), Inner("table_body", ns)]), c)
         == (Kids([Bare("table_caption"), Inner("table_body", UpdateAll(ns, c).0)]), UpdateAll(ns, c).1)
  {
    BareStays("table_caption", c);
    hide UpdateNode, UpdateAll;
    BodyNodeUpdates(ns, c);
    UpdateTwo(Bare("table_caption"), Inner("table_body", ns), c);
  }

  /** Descending into the wrapped content comes to the same as migrating the content and then wrapping it; the
      counter moves by the number of lists and tables. */
  lemma {:induction false} UpdateIsMigrated(n: Node, c: nat)
    ensures UpdateNode(n, c) == (Migrated(n, c), c + Count(n))
    decreases n, 1
  {
    hide Rewrite, MigratedKids, NewContent, CountInContent;
    var contents := NewContents(n, c);
    if n.contents.Some? {
      UpdateIsMigrated(n.contents.value, c);
    }
    RewriteIgnoresContents(n, contents, AtId(n, c));
    RewriteKeepsLists(n, AtId(n, c));
    var m := Rewrite(n.(contents := contents), AtId(n, c)).0;
    if SortOf(n) == Footnote {
      UpdateKidsIsMigrated(n.attrs.value.footnote, AtFootnote(n, c));
    }
    ContentIsMigrated(n, m.content, AtId(n, c), AtContent(n, c));
    if n.attrs.Some? {
      UpdateKidsIsMigrated(n.attrs.value.initial, AtInitial(n, c));
    } else {
      assert UpdateKids(Absent, AtInitial(n, c)) == (Absent, AtInitial(n, c));
    }
  }

  lemma {:induction false} ContentIsMigrated(n: Node, content: Kids, c: nat, d: nat)
    requires content == Rewrite(n, c).0.content
    ensures UpdateKids(content, d) == (NewContent(n, d), d + CountInContent(n))
    decreases n, 0
  {
    match SortOf(n)
    case Table =>
      TableUpdates(n.content.nodes, d);
      UpdateKidsIsMigrated(n.content, d);
    case EmptyCell =>
      BareStays("paragraph", d);
      UpdateOne(Bare("paragraph"), d);
    case Figure =>
      FigureStays(n, d);
    case _ =>
      UpdateKidsIsMigrated(n.content, d);
  }

  lemma {:induction false} UpdateKidsIsMigrated(k: Kids, c: nat)
    ensures UpdateKids(k, c) == (MigratedKids(k, c), c + CountInKids(k))
    decreases k
  {
    if k.Kids? {
      UpdateAllIsMigrated(k.nodes, c);
    }
  }

  lemma {:induction false} UpdateAllIsMigrated(ns: seq<Node>, c: nat)
    ensures UpdateAll(ns, c) == (MigratedAll(ns, c), c + CountInAll(ns))
    decreases ns
  {
    if ns != [] {
      hide UpdateNode, Migrated, Count;
      UpdateIsMigrated(ns[0], c);
      UpdateAllIsMigrated(ns[1..], UpdateNode(ns[0], c).1);
    }
  }
}
