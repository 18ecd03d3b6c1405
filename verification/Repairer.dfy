/** The repair as it runs, with its own counter. */
module Repairer {
  import opened Prelude
  import opened Trees
  import opened Migration
  import opened Migrator
  import opened Repair

  predicate CanFix(n: Node)
    decreases n
  {
    Done(n) || if SortOf(n) == Figure then CaptionFits(n) else CanFixKids(n.content)
  }

  predicate CanFixKids(k: Kids)
    decreases k
  {
    k.Kids? ==> CanFixAll(k.nodes)
  }

  predicate CanFixAll(ns: seq<Node>)
    decreases ns
  {
    ns != [] ==> CanFix(ns[0]) && CanFixAll(ns[1..])
  }

  predicate CanRepair(n: Node)
    decreases n
  {
    && (n.contents.Some? ==> CanRepair(n.contents.value))
    && CanRepairKids(n.content)
    && (n.attrs.Some? ==> CanFixKids(n.attrs.value.initial))
  }

  predicate CanRepairKids(k: Kids)
    decreases k
  {
    k.Kids? ==> CanRepairAll(k.nodes)
  }

  predicate CanRepairAll(ns: seq<Node>)
    decreases ns
  {
    ns != [] ==> CanRepair(ns[0]) && CanRepairAll(ns[1..])
  }

  lemma TwoCanFix(a: Node, b: Node)
    requires CanFix(a) && CanFix(b)
    ensures CanFixAll([a]) && CanFixAll([a, b])
  {
    assert [a][1..] == [] && [b][1..] == [] && [a, b][1..] == [b];
  }

  lemma FixedContentCanFix(n: Node, c: nat)
    requires CanFix(n) && !Done(n)
    ensures CanFixKids(Fix(n, c).0.content)
  {
    match SortOf(n)
    case Table => TwoCanFix(Bare("table_caption"), Inner("table_body", n.content.nodes));
    case EmptyCell => TwoCanFix(Bare("paragraph"), Bare("paragraph"));
    case Figure =>
      var a := AttrsOf(n);
      if HasWords(a.caption) {
        var t := Bare("text").(text := Some(a.caption.value.s));
        TwoCanFix(t, t);
      }
      TwoCanFix(CaptionNode(a), Body(a));
      TwoCanFix(Body(a), CaptionNode(a));
    case _ =>
  }

  lemma FilledCanRepair(n: Node)
    requires CanRepair(n)
    ensures CanRepairKids(Filled(n).content)
  {
    assert [Bare("paragraph")][1..] == [];
    assert CanRepairAll([Bare("paragraph")]);
  }

  lemma TailCanFix(ns: seq<Node>, i: nat)
    requires CanFixAll(ns) && i <= |ns|
    ensures CanFixAll(ns[i..])
  {
    if i > 0 {
      TailCanFix(ns[1..], i - 1);
      assert ns[1..][i - 1..] == ns[i..];
    }
  }

  lemma TailCanRepair(ns: seq<Node>, i: nat)
    requires CanRepairAll(ns) && i <= |ns|
    ensures CanRepairAll(ns[i..])
  {
    if i > 0 {
      TailCanRepair(ns[1..], i - 1);
      assert ns[1..][i - 1..] == ns[i..];
    }
  }

  lemma NothingToFix(c: nat)
    ensures FixKids(Absent, c) == (Absent, c)
  {
  }

  class RepairCounter {
    var counter: nat

    constructor ()
      ensures counter == 0
    {
      counter := 0;
    }

    /** The branches of `update_initial_node` on the node's type. */
    method FixOne(n: Node) returns (m: Node)
      requires !Done(n)
      modifies this
      ensures (m, counter) == Fix(n, old(counter))
    {
      m := n;
      match SortOf(n)
      case Listing =>
        counter := counter + 1;
        if AttrsOf(n).id.None? {
          m := WithId(n, "L", counter);
        }
      case Table =>
        counter := counter + 1;
        if AttrsOf(n).id.None? {
          m := WithId(n, "T", counter);
          m := m.(attrs := Some(m.attrs.value.(caption := Some(Flag(false)))));
          m := m.(content := Kids([Bare("table_caption"), Inner("table_body", m.content.nodes)]));
        }
      case EmptyCell =>
        m := m.(content := Kids([Bare("paragraph")]));
      case Figure =>
        m := RewriteFigure(n);
      case _ =>
    }

    method FixInitialNode(n: Node) returns (m: Node)
      requires CanFix(n)
      modifies this
      ensures (m, counter) == FixInitial(n, old(counter))
      decreases Weight(n), 0, 0
    {
      if Done(n) {
        return n;
      }
      FixIsLighter(n, counter);
      FixedContentCanFix(n, counter);
      m := FixOne(n);
      hide Fix, FixKids, CanFix, CanFixKids;
      var content := FixList(m.content);
      m := m.(content := content);
    }

    method FixList(k: Kids) returns (r: Kids)
      requires CanFixKids(k)
      modifies this
      ensures (r, counter) == FixKids(k, old(counter))
      decreases KidsWeight(k), 2, 0
    {
      r := k;
      if k.Kids? {
        var nodes := FixEach(k.nodes);
        r := Kids(nodes);
      }
    }

    method FixEach(ns: seq<Node>) returns (ms: seq<Node>)
      requires CanFixAll(ns)
      modifies this
      ensures (ms, counter) == FixAll(ns, old(counter))
      decreases Total(ns), 1, |ns|
    {
      hide FixInitial, CanFix, Weight;
      ms := [];
      var i := 0;
      assert ns[0..] == ns && [] + FixAll(ns, counter).0 == FixAll(ns, counter).0;
      while i < |ns|
        invariant 0 <= i <= |ns|
        invariant var (rest, end) := FixAll(ns[i..], counter);
          FixAll(ns, old(counter)) == (ms + rest, end)
      {
        TailCanFix(ns, i);
        TotalOfTail(ns, i);
        assert ns[i..][0] == ns[i] && ns[i..][1..] == ns[i + 1..];
        ghost var here := FixAll(ns[i..], counter).0;
        var m := FixInitialNode(ns[i]);
        assert here == [m] + FixAll(ns[i + 1..], counter).0;
        assert ms + here == ms + [m] + FixAll(ns[i + 1..], counter).0;
        ms := ms + [m];
        i := i + 1;
      }
      assert ns[i..] == [] && ms + [] == ms;
    }

    /** `update_node`. */
    method RepairOne(n: Node) returns (m: Node)
      requires CanRepair(n)
      modifies this
      ensures (m, counter) == RepairNode(n, old(counter))
      decreases Weight(n), 0, 0
    {
      FilledIsLighter(n);
      FilledCanRepair(n);
      hide RepairKids, FixKids, CanRepairKids, CanFixKids;
      m := n;
      if n.contents.Some? {
        var contents := RepairOne(n.contents.value);
        m := m.(contents := Some(contents));
      }
      if Empty(n) {
        m := m.(content := Kids([Bare("paragraph")]));
      }
      var content := RepairList(m.content);
      m := m.(content := content);
      if n.attrs.Some? {
        var initial := FixList(n.attrs.value.initial);
        m := m.(attrs := Some(n.attrs.value.(initial := initial)));
      } else {
        assert FixKids(Absent, counter) == (Absent, counter) by { NothingToFix(counter); }
      }
    }

    method RepairList(k: Kids) returns (r: Kids)
      requires CanRepairKids(k)
      modifies this
      ensures (r, counter) == RepairKids(k, old(counter))
      decreases KidsWeight(k), 2, 0
    {
      r := k;
      if k.Kids? {
        var nodes := RepairEach(k.nodes);
        r := Kids(nodes);
      }
    }

    method RepairEach(ns: seq<Node>) returns (ms: seq<Node>)
      requires CanRepairAll(ns)
      modifies this
      ensures (ms, counter) == RepairAll(ns, old(counter))
      decreases Total(ns), 1, |ns|
    {
      hide RepairNode, CanRepair, Weight;
      ms := [];
      var i := 0;
      assert ns[0..] == ns && [] + RepairAll(ns, counter).0 == RepairAll(ns, counter).0;
      while i < |ns|
        invariant 0 <= i <= |ns|
        invariant var (rest, end) := RepairAll(ns[i..], counter);
          RepairAll(ns, old(counter)) == (ms + rest, end)
      {
        TailCanRepair(ns, i);
        TotalOfTail(ns, i);
        assert ns[i..][0] == ns[i] && ns[i..][1..] == ns[i + 1..];
        ghost var here := RepairAll(ns[i..], counter).0;
        var m := RepairOne(ns[i]);
        assert here == [m] + RepairAll(ns[i + 1..], counter).0;
        assert ms + here == ms + [m] + RepairAll(ns[i + 1..], counter).0;
        ms := ms + [m];
        i := i + 1;
      }
      assert ns[i..] == [] && ms + [] == ms;
    }
  }
}
