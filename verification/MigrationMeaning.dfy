/** What the migration to 3.3 keeps, what it promises, and the object that carries its counter. */
module MigrationMeaning {
  import opened Prelude
  import opened Decimals
  import opened Trees
  import opened Migration

  // ---- Identifiers

  /** The ids of lists and tables, in the order the migration visits them. */
  function Ids(n: Node): seq<Option<string>>
    decreases n, 1
  {
    IdsInContents(n) + OwnIds(n) + IdsInFootnote(n) + IdsOfKids(n.content) + IdsInInitial(n)
  }

  function IdsInContents(n: Node): seq<Option<string>>
    decreases n, 0
  {
    if n.contents.Some? then Ids(n.contents.value) else []
  }

  function OwnIds(n: Node): seq<Option<string>> {
    if Listed(n) then [AttrsOf(n).id] else []
  }

  function IdsInFootnote(n: Node): seq<Option<string>>
    decreases n, 0
  {
    if SortOf(n) == Footnote then IdsOfKids(n.attrs.value.footnote) else []
  }

  function IdsInInitial(n: Node): seq<Option<string>>
    decreases n, 0
  {
    if n.attrs.Some? then IdsOfKids(n.attrs.value.initial) else []
  }

  function IdsOfKids(k: Kids): seq<Option<string>>
    decreases k
  {
    if k.Absent? then [] else IdsOfAll(k.nodes)
  }

  function IdsOfAll(ns: seq<Node>): seq<Option<string>>
    decreases ns
  {
    if ns == [] then [] else Ids(ns[0]) + IdsOfAll(ns[1..])
  }

  predicate IsNumber(id: Option<string>, k: nat) {
    id == Some("L" + Padded(k)) || id == Some("T" + Padded(k))
  }

  /** One id for every number after `c`, in order. */
  ghost predicate Numbered(ids: seq<Option<string>>, c: nat, count: nat) {
    |ids| == count && forall i :: 0 <= i < |ids| ==> IsNumber(ids[i], c + 1 + i)
  }

  lemma NumberedJoin(a: seq<Option<string>>, b: seq<Option<string>>, c: nat, m: nat, n: nat)
    requires Numbered(a, c, m) && Numbered(b, c + m, n)
    ensures Numbered(a + b, c, m + n)
  {
    hide IsNumber;
    forall i | 0 <= i < |a + b| ensures IsNumber((a + b)[i], c + 1 + i) {
      if i >= |a| {
        assert IsNumber(b[i - |a|], c + m + 1 + (i - |a|));
      }
    }
  }

  lemma SortStays(n: Node, c: nat)
    ensures SortOf(Migrated(n, c)) == if SortOf(n) == EmptyCell then Plain else SortOf(n)
  {
    hide Padded, CountInFootnote, CountInContent, CountInContents, Body, CaptionNode;
  }

  /** The id of a list or table is numbered with the counter at its turn. */
  lemma OwnIdIsNumbered(n: Node, c: nat)
    ensures Numbered(OwnIds(Migrated(n, c)), AtId(n, c), if Listed(n) then 1 else 0)
  {
    SortStays(n, c);
    hide Padded, CountInFootnote, CountInContent, CountInContents, NewContent, NewContents, MigratedKids;
  }

  lemma FootnoteStays(n: Node, c: nat)
    ensures IdsInFootnote(Migrated(n, c))
         == if SortOf(n) == Footnote then IdsOfKids(MigratedKids(n.attrs.value.footnote, AtFootnote(n, c))) else []
    ensures IdsInInitial(Migrated(n, c))
         == if n.attrs.Some? then IdsOfKids(MigratedKids(n.attrs.value.initial, AtInitial(n, c))) else []
  {
    SortStays(n, c);
    assert IdsOfKids(Absent) == [];
    hide Padded, CountInFootnote, CountInContent, CountInContents, NewContent, NewContents, MigratedKids, IdsOfKids;
  }

  lemma {:induction false} IdsAreNumbered(n: Node, c: nat)
    ensures Numbered(Ids(Migrated(n, c)), c, Count(n))
    decreases n, 1
  {
    var m := Migrated(n, c);
    assert Numbered(IdsInContents(m), c, CountInContents(n)) by {
      if n.contents.Some? {
        IdsAreNumbered(n.contents.value, c);
      }
    }
    assert Numbered(IdsInFootnote(m), AtFootnote(n, c), CountInFootnote(n))
        && Numbered(IdsInInitial(m), AtInitial(n, c), CountInInitial(n)) by {
      FootnoteStays(n, c);
      hide Migrated, MigratedKids;
      if SortOf(n) == Footnote {
        IdsOfKidsAreNumbered(n.attrs.value.footnote, AtFootnote(n, c));
      }
      if n.attrs.Some? {
        IdsOfKidsAreNumbered(n.attrs.value.initial, AtInitial(n, c));
      }
    }
    OwnIdIsNumbered(n, c);
    ContentIsNumbered(n, AtContent(n, c));
    hide IsNumber, Numbered, IdsInContents, OwnIds, IdsInFootnote, IdsInInitial, IdsOfKids, NewContent, NewContents,
         NewAttrs, Listed, CountInContents, CountInFootnote, CountInContent, CountInInitial;
    var own := if Listed(n) then 1 else 0;
    NumberedJoin(IdsInContents(m), OwnIds(m), c, CountInContents(n), own);
    NumberedJoin(IdsInContents(m) + OwnIds(m), IdsInFootnote(m), c, CountInContents(n) + own, CountInFootnote(n));
    NumberedJoin(IdsInContents(m) + OwnIds(m) + IdsInFootnote(m), IdsOfKids(m.content), c,
                 CountInContents(n) + own + CountInFootnote(n), CountInContent(n));
    NumberedJoin(IdsInContents(m) + OwnIds(m) + IdsInFootnote(m) + IdsOfKids(m.content), IdsInInitial(m), c,
                 CountInContents(n) + own + CountInFootnote(n) + CountInContent(n), CountInInitial(n));
  }

  lemma {:induction false} ContentIsNumbered(n: Node, c: nat)
    ensures Numbered(IdsOfKids(NewContent(n, c)), c, CountInContent(n))
    decreases n, 0
  {
    match SortOf(n)
    case Table =>
      IdsOfKidsAreNumbered(n.content, c);
      var all := MigratedKids(n.content, c);
      TwoIds(Bare("table_caption"), Inner("table_body", all.nodes));
    case EmptyCell =>
      TwoIds(Bare("paragraph"), Bare("paragraph"));
    case Figure =>
      FigureHasNoIds(n);
    case _ =>
      IdsOfKidsAreNumbered(n.content, c);
  }

  lemma OneId(a: Node)
    ensures IdsOfAll([a]) == Ids(a)
  {
    assert [a][1..] == [];
  }

  lemma TwoIds(a: Node, b: Node)
    ensures IdsOfAll([a]) == Ids(a) && IdsOfAll([a, b]) == Ids(a) + Ids(b)
  {
    OneId(a);
    OneId(b);
    assert [a, b][1..] == [b];
  }

  lemma CaptionHasNoIds(a: Attrs)
    ensures Ids(CaptionNode(a)) == [] && Ids(Body(a)) == []
  {
    if HasWords(a.caption) {
      OneId(Bare("text").(text := Some(a.caption.value.s)));
    }
  }

  lemma FigureHasNoIds(n: Node)
    ensures IdsOfKids(NewFigure(n).content) == []
  {
    var a := AttrsOf(n);
    CaptionHasNoIds(a);
    TwoIds(CaptionNode(a), Body(a));
    TwoIds(Body(a), CaptionNode(a));
    hide Ids, IdsOfAll, CaptionNode, Body;
  }

  lemma {:induction false} IdsOfKidsAreNumbered(k: Kids, c: nat)
    ensures Numbered(IdsOfKids(MigratedKids(k, c)), c, CountInKids(k))
    decreases k
  {
    if k.Kids? {
      IdsOfAllAreNumbered(k.nodes, c);
    }
  }

  lemma {:induction false} IdsOfAllAreNumbered(ns: seq<Node>, c: nat)
    ensures Numbered(IdsOfAll(MigratedAll(ns, c)), c, CountInAll(ns))
    decreases ns
  {
    if ns != [] {
      IdsAreNumbered(ns[0], c);
      IdsOfAllAreNumbered(ns[1..], c + Count(ns[0]));
      NumberedJoin(Ids(Migrated(ns[0], c)), IdsOfAll(MigratedAll(ns[1..], c + Count(ns[0]))), c, Count(ns[0]),
                   CountInAll(ns[1..]));
      assert MigratedAll(ns, c)[1..] == MigratedAll(ns[1..], c + Count(ns[0]));
    }
  }

  /** A whole run over documents, templates and revisions: every list and table has an id, and no two are the same. */
  lemma RunIdsAreDistinct(documents: seq<Node>, c: nat)
    ensures var ids := IdsOfAll(UpdateAll(documents, c).0);
      && |ids| == CountInAll(documents) && UpdateAll(documents, c).1 == c + CountInAll(documents)
      && (forall i :: 0 <= i < |ids| ==> ids[i].Some?)
      && Distinct(ids)
  {
    UpdateAllIsMigrated(documents, c);
    IdsOfAllAreNumbered(documents, c);
    NumbersAreDistinct(IdsOfAll(UpdateAll(documents, c).0), c, CountInAll(documents));
    hide *;
  }

  lemma NumbersAreDistinct(ids: seq<Option<string>>, c: nat, count: nat)
    requires Numbered(ids, c, count)
    ensures Distinct(ids) && |ids| == count && forall i :: 0 <= i < |ids| ==> ids[i].Some?
  {
    hide Padded;
    forall i, j | 0 <= i < j < |ids| ensures ids[i] != ids[j] {
      if ids[i] == ids[j] {
        assert IsNumber(ids[i], c + 1 + i) && IsNumber(ids[j], c + 1 + j);
        assert ids[i].value[1..] == Padded(c + 1 + i) && ids[j].value[1..] == Padded(c + 1 + j);
        PaddedIsInjective(c + 1 + i, c + 1 + j);
      }
    }
  }

  // ---- Meaning: what an editor for 3.2 shows of the old tree, one for 3.3 shows of the new one

  datatype Content = Picture(image: Val) | Formula(equation: Val) | Unreadable

  /** What a reader sees, in document order. A figure is a leaf of 3.2; in 3.3 it is its two children. */
  datatype Event =
    | Opens(kind: Option<string>, text: Option<string>, marks: string, attrs: Attrs)
    | Shows(category: Val, content: Content, caption: string, text: Option<string>, marks: string, attrs: Attrs)
    | Broken
    | Closes

  /** The attributes apart from those the two formats keep differently, and from lists read on their own. */
  function Common(n: Node): Attrs {
    var a := AttrsOf(n);
    a.(initial := Absent,
       footnote := if n.kind == Some("footnote") then Absent else a.footnote,
       id := if Listed(n) then None else a.id,
       caption := if SortOf(n) in {Table, Figure} then None else a.caption,
       category := if SortOf(n) == Figure then None else a.category,
       figureCategory := if SortOf(n) == Figure then None else a.figureCategory,
       image := if SortOf(n) == Figure then None else a.image,
       equation := if SortOf(n) == Figure then None else a.equation)
  }

  function OldFigure(n: Node): Event {
    var a := AttrsOf(n);
    Shows(if a.figureCategory.Some? then a.figureCategory.value else Str("none"),
          if a.image.Some? && a.image.value != Flag(false) then Picture(a.image.value)
          else Formula(if a.equation.Some? then a.equation.value else Str("")),
          if HasWords(a.caption) then a.caption.value.s else "", n.text, n.marks, Common(n))
  }

  function ReadBody(b: Node): Content {
    if b.kind == Some("image") && AttrsOf(b).image.Some? then Picture(AttrsOf(b).image.value)
    else if b.kind == Some("figure_equation") && AttrsOf(b).equation.Some? then Formula(AttrsOf(b).equation.value)
    else Unreadable
  }

  /** The words of a caption node, if that is what it is. */
  function ReadCaption(b: Node): Option<string> {
    if b.kind != Some("figure_caption") then None
    else if b.content == Absent then Some("")
    else if |b.content.nodes| == 1 && b.content.nodes[0].kind == Some("text") then b.content.nodes[0].text
    else None
  }

  function NewFigureEvent(n: Node): Event {
    var a := AttrsOf(n);
    if a.category.None? || a.caption.None? || n.content.Absent? || |n.content.nodes| != 2 then Broken
    else
      var captionFirst := a.category.value == Str("table");
      var caption := ReadCaption(n.content.nodes[if captionFirst then 0 else 1]);
      var content := ReadBody(n.content.nodes[if captionFirst then 1 else 0]);
      if caption.None? || a.caption.value != Flag(caption.value != "") || content == Unreadable then Broken
      else Shows(a.category.value, content, caption.value, n.text, n.marks, Common(n))
  }

  /** A cell holding nothing but an empty paragraph shows as an empty cell. */
  predicate Blank(k: Kids) {
    k.Absent? || k.nodes == [] || k.nodes == [Bare("paragraph")]
  }

  predicate Wrapped(nodes: seq<Node>) {
    |nodes| == 2 && nodes[0] == Bare("table_caption") && nodes[1].content.Kids?
    && nodes[1] == Inner("table_body", nodes[1].content.nodes)
  }

  function Read(n: Node, v33: bool): seq<Event>
    decreases n, 1
  {
    ReadContents(n, v33)
    + [if SortOf(n) != Figure then Opens(n.kind, n.text, n.marks, Common(n))
       else if v33 then NewFigureEvent(n) else OldFigure(n)]
    + ReadFootnote(n, v33) + Inside(n, v33) + ReadInitial(n, v33) + [Closes]
  }

  function ReadContents(n: Node, v33: bool): seq<Event>
    decreases n, 0
  {
    if n.contents.Some? then Read(n.contents.value, v33) else []
  }

  function ReadFootnote(n: Node, v33: bool): seq<Event>
    decreases n, 0
  {
    if SortOf(n) == Footnote then ReadKids(n.attrs.value.footnote, v33) else []
  }

  function ReadInitial(n: Node, v33: bool): seq<Event>
    decreases n, 0
  {
    if n.attrs.Some? then ReadKids(n.attrs.value.initial, v33) else []
  }

  function Inside(n: Node, v33: bool): seq<Event>
    decreases n, 0
  {
    if SortOf(n) == Figure || (n.kind == Some("table_cell") && Blank(n.content)) then []
    else if v33 && SortOf(n) == Table then
      if Wrapped(n.content.nodes) then ReadKids(n.content.nodes[1].content, v33) else [Broken]
    else ReadKids(n.content, v33)
  }

  function ReadKids(k: Kids, v33: bool): seq<Event>
    decreases k
  {
    if k.Absent? then [] else ReadAll(k.nodes, v33)
  }

  function ReadAll(ns: seq<Node>, v33: bool): seq<Event>
    decreases ns
  {
    if ns == [] then [] else Read(ns[0], v33) + ReadAll(ns[1..], v33)
  }

  lemma FigureParts(n: Node, c: nat)
    requires SortOf(n) == Figure
    ensures var m := Migrated(n, c);
      && m.content == NewFigure(n).content
      && AttrsOf(m).category == AttrsOf(NewFigure(n)).category && AttrsOf(m).caption == AttrsOf(NewFigure(n)).caption
  {
    hide Padded, CountInFootnote, CountInContent, CountInContents, MigratedKids, NewContents, Body, CaptionNode;
  }

  lemma FigureReadsTheSame(n: Node, c: nat)
    requires SortOf(n) == Figure
    ensures NewFigureEvent(Migrated(n, c)) == OldFigure(n)
  {
    FigureParts(n, c);
    CommonStays(n, c);
    var a := AttrsOf(n);
    assert ReadCaption(CaptionNode(a)) == Some(if HasWords(a.caption) then a.caption.value.s else "");
    assert ReadBody(Body(a)) == OldFigure(n).content;
    hide NewAttrs, NewContent, NewContents, Common, Body, CaptionNode, ReadBody, ReadCaption;
  }

  lemma CommonStays(n: Node, c: nat)
    ensures Common(Migrated(n, c)) == Common(n)
  {
    SortStays(n, c);
    hide Padded, CountInFootnote, CountInContent, CountInContents, MigratedKids, NewContents, NewContent, Body,
         CaptionNode;
  }

  lemma ParagraphStays(n: Node, c: nat)
    ensures Migrated(n, c) == Bare("paragraph") ==> n == Bare("paragraph")
  {
    SortStays(n, c);
    hide Padded, CountInFootnote, CountInContent, CountInContents, MigratedKids;
  }

  lemma BlankStays(n: Node, c: nat)
    requires n.kind == Some("table_cell")
    ensures Blank(NewContent(n, c)) == Blank(n.content)
  {
    if SortOf(n) != EmptyCell {
      assert |n.content.nodes| == |MigratedKids(n.content, c).nodes|;
      if |n.content.nodes| == 1 {
        var k := n.content.nodes[0];
        assert MigratedKids(n.content, c).nodes == MigratedAll(n.content.nodes, c);
        assert MigratedAll(n.content.nodes, c)[0] == Migrated(k, c);
        ParagraphStays(k, c);
        if k == Bare("paragraph") {
          assert Migrated(k, c) == k;
        }
      }
    }
  }

  lemma {:induction false} InsideReadsTheSame(n: Node, c: nat)
    ensures Inside(Migrated(n, c), true) == Inside(n, false)
    decreases n, 0
  {
    SortStays(n, c);
    var d := AtContent(n, c);
    hide Padded, NewAttrs, NewContents, CountInContents, CountInFootnote;
    if n.kind == Some("table_cell") {
      BlankStays(n, d);
    }
    match SortOf(n)
    case Table => KidsReadTheSame(n.content, d);
    case EmptyCell =>
    case Figure =>
    case _ => KidsReadTheSame(n.content, d);
  }

  /** The migration preserves meaning: the new tree, read as 3.3, shows exactly what the old one showed, read as 3.2. */
  lemma {:induction false} ReadsTheSame(n: Node, c: nat)
    ensures Read(Migrated(n, c), true) == Read(n, false)
    decreases n, 1
  {
    var m := Migrated(n, c);
    SortStays(n, c);
    CommonStays(n, c);
    if SortOf(n) == Figure {
      FigureReadsTheSame(n, c);
    }
    if n.contents.Some? {
      ReadsTheSame(n.contents.value, c);
    }
    assert ReadContents(m, true) == ReadContents(n, false);
    if SortOf(n) == Footnote {
      KidsReadTheSame(n.attrs.value.footnote, AtFootnote(n, c));
    }
    InsideReadsTheSame(n, c);
    if n.attrs.Some? {
      KidsReadTheSame(n.attrs.value.initial, AtInitial(n, c));
    }
    ListsReadTheSame(n, c);
    hide Inside, Common, NewFigureEvent, OldFigure, ReadContents, ReadFootnote, ReadInitial, NewAttrs, NewContent;
  }

  lemma ListsReadTheSame(n: Node, c: nat)
    requires SortOf(n) == Footnote ==>
      ReadKids(MigratedKids(n.attrs.value.footnote, AtFootnote(n, c)), true) == ReadKids(n.attrs.value.footnote, false)
    requires n.attrs.Some? ==>
      ReadKids(MigratedKids(n.attrs.value.initial, AtInitial(n, c)), true) == ReadKids(n.attrs.value.initial, false)
    ensures ReadFootnote(Migrated(n, c), true) == ReadFootnote(n, false)
    ensures ReadInitial(Migrated(n, c), true) == ReadInitial(n, false)
  {
    SortStays(n, c);
    assert ReadKids(Absent, true) == [];
    hide Padded, CountInFootnote, CountInContent, CountInContents, NewContent, NewContents, MigratedKids, ReadKids;
  }

  lemma {:induction false} KidsReadTheSame(k: Kids, c: nat)
    ensures ReadKids(MigratedKids(k, c), true) == ReadKids(k, false)
    decreases k
  {
    if k.Kids? {
      AllReadTheSame(k.nodes, c);
    }
  }

  lemma {:induction false} AllReadTheSame(ns: seq<Node>, c: nat)
    ensures ReadAll(MigratedAll(ns, c), true) == ReadAll(ns, false)
    decreases ns
  {
    if ns != [] {
      ReadsTheSame(ns[0], c);
      AllReadTheSame(ns[1..], c + Count(ns[0]));
      assert MigratedAll(ns, c)[1..] == MigratedAll(ns[1..], c + Count(ns[0]));
    }
  }

  // ---- Shape

  predicate Lettered(id: Option<string>, letter: char) {
    id.Some? && id.value != "" && id.value[0] == letter
  }

  /** What 3.3 asks of one node. */
  predicate OwnShape(n: Node) {
    var a := AttrsOf(n);
    match SortOf(n)
    case Listing => Lettered(a.id, 'L')
    case Table => Lettered(a.id, 'T') && a.caption == Some(Flag(false)) && Wrapped(n.content.nodes)
    case EmptyCell => false
    case Figure => NewFigureEvent(n) != Broken && a.figureCategory.None? && a.image.None? && a.equation.None?
    case _ => true
  }

  predicate Shaped(n: Node)
    decreases n
  {
    && OwnShape(n)
    && (n.contents.Some? ==> Shaped(n.contents.value))
    && (SortOf(n) == Footnote ==> ShapedKids(n.attrs.value.footnote))
    && ShapedKids(n.content)
    && (n.attrs.Some? ==> ShapedKids(n.attrs.value.initial))
  }

  predicate ShapedKids(k: Kids)
    decreases k
  {
    k.Kids? ==> ShapedAll(k.nodes)
  }

  predicate ShapedAll(ns: seq<Node>)
    decreases ns
  {
    ns != [] ==> Shaped(ns[0]) && ShapedAll(ns[1..])
  }

  lemma ShapedTwo(a: Node, b: Node)
    requires Shaped(a) && Shaped(b)
    ensures ShapedAll([a]) && ShapedAll([a, b])
  {
    assert [a][1..] == [] && [b][1..] == [] && [a, b][1..] == [b];
  }

  lemma NewFigureIsShaped(n: Node)
    ensures ShapedKids(NewFigure(n).content)
  {
    var a := AttrsOf(n);
    if HasWords(a.caption) {
      var t := Bare("text").(text := Some(a.caption.value.s));
      ShapedTwo(t, t);
    }
    ShapedTwo(CaptionNode(a), Body(a));
    ShapedTwo(Body(a), CaptionNode(a));
  }

  lemma OwnShapeAfterwards(n: Node, c: nat)
    ensures OwnShape(Migrated(n, c))
  {
    SortStays(n, c);
    if SortOf(n) == Figure {
      FigureReadsTheSame(n, c);
    }
    hide NewFigureEvent, Padded, CountInFootnote, CountInContent, CountInContents, MigratedKids, NewContents;
  }

  lemma {:induction false} NewContentIsShaped(n: Node, c: nat)
    ensures ShapedKids(NewContent(n, c))
    decreases n, 0
  {
    match SortOf(n)
    case Table =>
      KidsAreShaped(n.content, c);
      ShapedTwo(Bare("table_caption"), Inner("table_body", MigratedKids(n.content, c).nodes));
    case EmptyCell =>
      ShapedTwo(Bare("paragraph"), Bare("paragraph"));
    case Figure =>
      NewFigureIsShaped(n);
    case _ =>
      KidsAreShaped(n.content, c);
  }

  /** Everywhere in the new tree: every list has an id with an L, every table one with a T, no caption switched on, a
      caption and a body, every figure its two children in the order of its category and no attribute of 3.2, and no
      cell is empty. */
  lemma {:induction false} MigratedIsShaped(n: Node, c: nat)
    ensures Shaped(Migrated(n, c))
    decreases n, 1
  {
    OwnShapeAfterwards(n, c);
    if n.contents.Some? {
      MigratedIsShaped(n.contents.value, c);
    }
    if SortOf(n) == Footnote {
      KidsAreShaped(n.attrs.value.footnote, AtFootnote(n, c));
    }
    NewContentIsShaped(n, AtContent(n, c));
    if n.attrs.Some? {
      KidsAreShaped(n.attrs.value.initial, AtInitial(n, c));
    }
    ListsAreShaped(n, c);
    hide OwnShape, ShapedKids, NewAttrs, NewContent;
  }

  lemma ListsAreShaped(n: Node, c: nat)
    requires SortOf(n) == Footnote ==> ShapedKids(MigratedKids(n.attrs.value.footnote, AtFootnote(n, c)))
    requires n.attrs.Some? ==> ShapedKids(MigratedKids(n.attrs.value.initial, AtInitial(n, c)))
    ensures var m := Migrated(n, c);
      && (SortOf(m) == Footnote ==> ShapedKids(m.attrs.value.footnote))
      && (m.attrs.Some? ==> ShapedKids(m.attrs.value.initial))
  {
    SortStays(n, c);
    assert ShapedKids(Absent);
    hide Padded, CountInFootnote, CountInContent, CountInContents, NewContent, NewContents, MigratedKids, ShapedKids;
  }

  lemma {:induction false} KidsAreShaped(k: Kids, c: nat)
    ensures ShapedKids(MigratedKids(k, c))
    decreases k
  {
    if k.Kids? {
      AllAreShaped(k.nodes, c);
    }
  }

  lemma {:induction false} AllAreShaped(ns: seq<Node>, c: nat)
    ensures ShapedAll(MigratedAll(ns, c))
    decreases ns
  {
    if ns != [] {
      MigratedIsShaped(ns[0], c);
      AllAreShaped(ns[1..], c + Count(ns[0]));
      assert MigratedAll(ns, c)[1..] == MigratedAll(ns[1..], c + Count(ns[0]));
    }
  }
}
