/** The migration as it runs: a counter that every list and table moves on, and loops over the children. */
module Migrator {
  import opened Prelude
  import opened Trees
  import opened Migration

  /** A figure's caption that is neither absent, `false` nor text has no length, and the migration stops. */
  predicate CaptionFits(n: Node) {
    var caption := AttrsOf(n).caption;
    caption.None? || caption.value == Flag(false) || caption.value.Str?
  }

  predicate CanUpdate(n: Node)
    decreases n
  {
    && (SortOf(n) == Figure ==> CaptionFits(n))
    && (n.contents.Some? ==> CanUpdate(n.contents.value))
    && (SortOf(n) == Footnote ==> CanUpdateKids(n.attrs.value.footnote))
    && (SortOf(n) != Figure ==> CanUpdateKids(n.content))
    && (n.attrs.Some? ==> CanUpdateKids(n.attrs.value.initial))
  }

  predicate CanUpdateKids(k: Kids)
    decreases k
  {
    k.Kids? ==> CanUpdateAll(k.nodes)
  }

  predicate CanUpdateAll(ns: seq<Node>)
    decreases ns
  {
    ns != [] ==> CanUpdate(ns[0]) && CanUpdateAll(ns[1..])
  }

  lemma TwoCanUpdate(a: Node, b: Node)
    requires CanUpdate(a) && CanUpdate(b)
    ensures CanUpdateAll([a]) && CanUpdateAll([a, b])
  {
    assert [a][1..] == [] && [b][1..] == [] && [a, b][1..] == [b];
  }

  lemma CaptionCanUpdate(a: Attrs)
    ensures CanUpdate(CaptionNode(a)) && CanUpdate(Body(a))
  {
    if HasWords(a.caption) {
      var t := Bare("text").(text := Some(a.caption.value.s));
      TwoCanUpdate(t, t);
    }
  }

  lemma FigureCanUpdate(n: Node)
    ensures CanUpdateKids(NewFigure(n).content)
  {
    var a := AttrsOf(n);
    CaptionCanUpdate(a);
    TwoCanUpdate(CaptionNode(a), Body(a));
    TwoCanUpdate(Body(a), CaptionNode(a));
    hide CanUpdate, CanUpdateAll, CaptionNode, Body;
  }

  /** The nodes a rewriting puts in can be updated if the ones it found could. */
  lemma NewContentCanUpdate(n: Node, c: nat)
    requires CanUpdate(n)
    ensures CanUpdateKids(Rewrite(n, c).0.content)
  {
    match SortOf(n)
    case Table => TwoCanUpdate(Bare("table_caption"), Inner("table_body", n.content.nodes));
    case EmptyCell => TwoCanUpdate(Bare("paragraph"), Bare("paragraph"));
    case Figure => FigureCanUpdate(n);
    case _ =>
  }

  lemma AllCanUpdate(ns: seq<Node>, i: nat)
    requires CanUpdateAll(ns) && i <= |ns|
    ensures CanUpdateAll(ns[i..])
  {
    if i > 0 {
      AllCanUpdate(ns[1..], i - 1);
      assert ns[1..][i - 1..] == ns[i..];
    }
  }

  lemma TotalOfTail(ns: seq<Node>, i: nat)
    requires i < |ns|
    ensures Weight(ns[i]) <= Total(ns)
  {
    if i > 0 {
      TotalOfTail(ns[1..], i - 1);
    }
  }

  method RewriteFigure(n: Node) returns (m: Node)
    ensures m == NewFigure(n)
  {
    var attrs := AttrsOf(n);
    if attrs.figureCategory.Some? {
      attrs := attrs.(category := attrs.figureCategory, figureCategory := None);
    } else {
      attrs := attrs.(category := Some(Str("none")));
    }
    var content;
    if attrs.image.Some? && attrs.image.value != Flag(false) {
      content := [Bare("image").(attrs := Some(NO_ATTRS.(image := attrs.image)))];
    } else {
      var equation := Str("");
      if attrs.equation.Some? {
        equation := attrs.equation.value;
      }
      content := [Bare("figure_equation").(attrs := Some(NO_ATTRS.(equation := Some(equation))))];
    }
    attrs := attrs.(image := None, equation := None);
    var caption := Bare("figure_caption");
    if HasWords(attrs.caption) {
      caption := caption.(content := Kids([Bare("text").(text := Some(attrs.caption.value.s))]));
      attrs := attrs.(caption := Some(Flag(true)));
    } else {
      attrs := attrs.(caption := Some(Flag(false)));
    }
    if attrs.category == Some(Str("table")) {
      content := [caption] + content;
    } else {
      content := content + [caption];
    }
    assert content == if attrs.category == Some(Str("table")) then [CaptionNode(AttrsOf(n)), Body(AttrsOf(n))]
                      else [Body(AttrsOf(n)), CaptionNode(AttrsOf(n))];
    m := n.(content := Kids(content), attrs := Some(attrs));
  }

  class IdCounter {
    var counter: nat

    constructor ()
      ensures counter == 0
    {
      counter := 0;
    }

    method NextId(n: Node, letter: string) returns (m: Node)
      modifies this
      ensures counter == old(counter) + 1 && m == WithId(n, letter, counter)
    {
      counter := counter + 1;
      m := n.(attrs := Some(AttrsOf(n).(id := Some(letter + Padded(counter)))));
    }

    /** The branches on the node's type. */
    method RewriteOne(n: Node) returns (m: Node)
      modifies this
      ensures (m, counter) == Rewrite(n, old(counter))
    {
      m := n;
      match SortOf(n)
      case Listing =>
        m := NextId(n, "L");
      case Table =>
        m := NextId(n, "T");
        m := m.(attrs := Some(m.attrs.value.(caption := Some(Flag(false)))));
        m := m.(content := Kids([Bare("table_caption"), Inner("table_body", m.content.nodes)]));
      case EmptyCell =>
        m := m.(content := Kids([Bare("paragraph")]));
      case Figure =>
        m := RewriteFigure(n);
      case _ =>
    }

    method Update(n: Node) returns (m: Node)
      requires CanUpdate(n)
      modifies this
      ensures (m, counter) == UpdateNode(n, old(counter))
      decreases Weight(n), 0, 0
    {
      m := n;
      if n.contents.Some? {
        var contents := Update(n.contents.value);
        m := m.(contents := Some(contents));
      }
      RewritingIsLighter(n, m.contents, counter);
      RewriteIgnoresContents(n, m.contents, counter);
      RewriteKeepsLists(n, counter);
      NewContentCanUpdate(n, counter);
      m := RewriteOne(m);
      hide Rewrite, UpdateKids;
      var footnote, content, initial := AttrsOf(m).footnote, m.content, AttrsOf(m).initial;
      if SortOf(n) == Footnote {
        footnote := UpdateList(footnote);
      }
      content := UpdateList(content);
      initial := UpdateList(initial);
      m := Assemble(m, footnote, content, initial);
    }

    method UpdateList(k: Kids) returns (r: Kids)
      requires CanUpdateKids(k)
      modifies this
      ensures (r, counter) == UpdateKids(k, old(counter))
      decreases KidsWeight(k), 2, 0
    {
      r := k;
      if k.Kids? {
        var nodes := UpdateEach(k.nodes);
        r := Kids(nodes);
      }
    }

    /** The documents of a run, or the children of a node. */
    method UpdateEach(ns: seq<Node>) returns (ms: seq<Node>)
      requires CanUpdateAll(ns)
      modifies this
      ensures (ms, counter) == UpdateAll(ns, old(counter))
      decreases Total(ns), 1, |ns|
    {
      hide UpdateNode, CanUpdate, Weight;
      ms := [];
      var i := 0;
      assert ns[0..] == ns && [] + UpdateAll(ns, counter).0 == UpdateAll(ns, counter).0;
      while i < |ns|
        invariant 0 <= i <= |ns|
        invariant var (rest, end) := UpdateAll(ns[i..], counter);
          UpdateAll(ns, old(counter)) == (ms + rest, end)
      {
        AllCanUpdate(ns, i);
        TotalOfTail(ns, i);
        assert ns[i..][0] == ns[i] && ns[i..][1..] == ns[i + 1..];
        ghost var here := UpdateAll(ns[i..], counter).0;
        var m := Update(ns[i]);
        assert here == [m] + UpdateAll(ns[i + 1..], counter).0;
        assert ms + here == ms + [m] + UpdateAll(ns[i + 1..], counter).0;
        ms := ms + [m];
        i := i + 1;
      }
      assert ns[i..] == [] && ms + [] == ms;
    }
  }
}
