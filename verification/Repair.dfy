/** The repair of documents already in format 3.3 (0007_fix_fidus_3_3.py). */
module Repair {
  import opened Prelude
  import opened Trees
  import opened Migration
  import opened MigrationMeaning

  // ---- What becomes of one node of an `initial` list

  /** Already updated: left alone with everything below it. */
  predicate Done(n: Node) {
    SortOf(n) == Figure && AttrsOf(n).category.Some?
  }

  /** The counter moves on at every list and table, whether or not the id is used. */
  function Fix(n: Node, c: nat): (Node, nat) {
    match SortOf(n)
    case Listing => (if AttrsOf(n).id.Some? then n else WithId(n, "L", c + 1), c + 1)
    case Table => (if AttrsOf(n).id.Some? then n else NewTable(n, c + 1), c + 1)
    case EmptyCell => (n.(content := Kids([Bare("paragraph")])), c)
    case Figure => (NewFigure(n), c)
    case _ => (n, c)
  }

  lemma FixIsLighter(n: Node, c: nat)
    ensures KidsWeight(Fix(n, c).0.content) < Weight(n)
  {
    ContentIsLighter(n, c);
  }

  /** `update_initial_node`. */
  function FixInitial(n: Node, c: nat): (Node, nat)
    decreases Weight(n), 0, 0
  {
    if Done(n) then (n, c)
    else
      FixIsLighter(n, c);
      var (m, c1) := Fix(n, c);
      var (content, c2) := FixKids(m.content, c1);
      (m.(content := content), c2)
  }

  function FixKids(k: Kids, c: nat): (r: (Kids, nat))
    ensures r.0.Kids? == k.Kids? && (k.Kids? ==> |r.0.nodes| == |k.nodes|)
    decreases KidsWeight(k), 2, 0
  {
    if k.Absent? then (k, c) else var (ns, c1) := FixAll(k.nodes, c); (Kids(ns), c1)
  }

  function FixAll(ns: seq<Node>, c: nat): (r: (seq<Node>, nat))
    ensures |r.0| == |ns|
    decreases Total(ns), 1, |ns|
  {
    if ns == [] then ([], c)
    else
      var (m, c1) := FixInitial(ns[0], c);
      var (ms, c2) := FixAll(ns[1..], c1);
      ([m] + ms, c2)
  }

  // ---- The repair of a document

  predicate Empty(n: Node) {
    SortOf(n) == EmptyCell
  }

  function Filled(n: Node): Node {
    if Empty(n) then n.(content := Kids([Bare("paragraph")])) else n
  }

  lemma FilledIsLighter(n: Node)
    ensures KidsWeight(Filled(n).content) + KidsWeight(AttrsOf(n).initial)
            + (if n.contents.Some? then Weight(n.contents.value) else 0) < Weight(n)
  {
    assert [Bare("paragraph")][1..] == [];
    assert Total([Bare("paragraph")]) == 1;
  }

  /** `update_node`; `initial` lists get the other treatment. */
  function RepairNode(n: Node, c: nat): (Node, nat)
    decreases Weight(n), 0, 0
  {
    FilledIsLighter(n);
    var (contents, c1) := if n.contents.None? then (None, c)
                          else var (r, k) := RepairNode(n.contents.value, c); (Some(r), k);
    var (content, c2) := RepairKids(Filled(n).content, c1);
    var (initial, c3) := FixKids(AttrsOf(n).initial, c2);
    (n.(contents := contents, content := content,
        attrs := if n.attrs.None? then None else Some(n.attrs.value.(initial := initial))), c3)
  }

  function RepairKids(k: Kids, c: nat): (r: (Kids, nat))
    ensures r.0.Kids? == k.Kids? && (k.Kids? ==> |r.0.nodes| == |k.nodes|)
    decreases KidsWeight(k), 2, 0
  {
    if k.Absent? then (k, c) else var (ns, c1) := RepairAll(k.nodes, c); (Kids(ns), c1)
  }

  function RepairAll(ns: seq<Node>, c: nat): (r: (seq<Node>, nat))
    ensures |r.0| == |ns|
    decreases Total(ns), 1, |ns|
  {
    if ns == [] then ([], c)
    else
      var (m, c1) := RepairNode(ns[0], c);
      var (ms, c2) := RepairAll(ns[1..], c1);
      ([m] + ms, c2)
  }

  // ---- Trees that need no repair

  predicate Settled(n: Node)
    decreases n
  {
    match SortOf(n)
    case Listing => AttrsOf(n).id.Some? && SettledKids(n.content)
    case Table => AttrsOf(n).id.Some? && SettledKids(n.content)
    case EmptyCell => false
    case Figure => AttrsOf(n).category.Some?
    case _ => SettledKids(n.content)
  }

  predicate SettledKids(k: Kids)
    decreases k
  {
    k.Kids? ==> SettledAll(k.nodes)
  }

  predicate SettledAll(ns: seq<Node>)
    decreases ns
  {
    ns != [] ==> Settled(ns[0]) && SettledAll(ns[1..])
  }

  predicate Sound(n: Node)
    decreases n
  {
    && !Empty(n)
    && (n.contents.Some? ==> Sound(n.contents.value))
    && SoundKids(n.content)
    && (n.attrs.Some? ==> SettledKids(n.attrs.value.initial))
  }

  predicate SoundKids(k: Kids)
    decreases k
  {
    k.Kids? ==> SoundAll(k.nodes)
  }

  predicate SoundAll(ns: seq<Node>)
    decreases ns
  {
    ns != [] ==> Sound(ns[0]) && SoundAll(ns[1..])
  }

  // ---- One application is enough

  lemma FixSettles(n: Node, c: nat, content: Kids)
    requires !Done(n) && SettledKids(content)
    requires var k := Fix(n, c).0.content; content.Kids? == k.Kids? && (k.Kids? ==> |content.nodes| == |k.nodes|)
    ensures Settled(Fix(n, c).0.(content := content))
  {
    hide Padded, SettledAll, Body, CaptionNode;
  }

  lemma {:induction false} FixedIsSettled(n: Node, c: nat)
    ensures Settled(FixInitial(n, c).0)
    decreases Weight(n), 0, 0
  {
    if !Done(n) {
      FixIsLighter(n, c);
      var (m, c1) := Fix(n, c);
      FixedKidsAreSettled(m.content, c1);
      FixSettles(n, c, FixKids(m.content, c1).0);
      hide Fix, FixKids, Settled, SettledKids;
    }
  }

  lemma {:induction false} FixedKidsAreSettled(k: Kids, c: nat)
    ensures SettledKids(FixKids(k, c).0)
    decreases KidsWeight(k), 2, 0
  {
    if k.Kids? {
      FixedAllAreSettled(k.nodes, c);
    }
  }

  lemma {:induction false} FixedAllAreSettled(ns: seq<Node>, c: nat)
    ensures SettledAll(FixAll(ns, c).0)
    decreases Total(ns), 1, |ns|
  {
    if ns != [] {
      FixedIsSettled(ns[0], c);
      FixedAllAreSettled(ns[1..], FixInitial(ns[0], c).1);
      assert FixAll(ns, c).0[1..] == FixAll(ns[1..], FixInitial(ns[0], c).1).0;
    }
  }

  lemma {:induction false} SettledStays(n: Node, c: nat)
    requires Settled(n)
    ensures FixInitial(n, c).0 == n
    decreases n
  {
    if !Done(n) {
      assert Fix(n, c).0 == n;
      SettledKidsStay(n.content, Fix(n, c).1);
    }
  }

  lemma {:induction false} SettledKidsStay(k: Kids, c: nat)
    requires SettledKids(k)
    ensures FixKids(k, c).0 == k
    decreases k
  {
    if k.Kids? {
      SettledAllStay(k.nodes, c);
    }
  }

  lemma {:induction false} SettledAllStay(ns: seq<Node>, c: nat)
    requires SettledAll(ns)
    ensures FixAll(ns, c).0 == ns
    decreases ns
  {
    if ns != [] {
      SettledStays(ns[0], c);
      SettledAllStay(ns[1..], FixInitial(ns[0], c).1);
    }
  }

  lemma {:induction false} RepairedIsSound(n: Node, c: nat)
    ensures Sound(RepairNode(n, c).0)
    decreases Weight(n), 0, 0
  {
    FilledIsLighter(n);
    var c1 := c;
    if n.contents.Some? {
      RepairedIsSound(n.contents.value, c);
      c1 := RepairNode(n.contents.value, c).1;
    }
    RepairedKidsAreSound(Filled(n).content, c1);
    var (content, c2) := RepairKids(Filled(n).content, c1);
    FixedKidsAreSettled(AttrsOf(n).initial, c2);
    hide SoundKids, SettledKids, FixKids, RepairKids;
  }

  lemma {:induction false} RepairedKidsAreSound(k: Kids, c: nat)
    ensures SoundKids(RepairKids(k, c).0)
    decreases KidsWeight(k), 2, 0
  {
    if k.Kids? {
      RepairedAllAreSound(k.nodes, c);
    }
  }

  lemma {:induction false} RepairedAllAreSound(ns: seq<Node>, c: nat)
    ensures SoundAll(RepairAll(ns, c).0)
    decreases Total(ns), 1, |ns|
  {
    if ns != [] {
      RepairedIsSound(ns[0], c);
      RepairedAllAreSound(ns[1..], RepairNode(ns[0], c).1);
      assert RepairAll(ns, c).0[1..] == RepairAll(ns[1..], RepairNode(ns[0], c).1).0;
    }
  }

  lemma {:induction false} SoundStays(n: Node, c: nat)
    requires Sound(n)
    ensures RepairNode(n, c).0 == n
    decreases n
  {
    var c1 := c;
    if n.contents.Some? {
      SoundStays(n.contents.value, c);
      c1 := RepairNode(n.contents.value, c).1;
    }
    SoundKidsStay(n.content, c1);
    if n.attrs.Some? {
      SettledKidsStay(n.attrs.value.initial, RepairKids(n.content, c1).1);
    }
    hide SoundKids, SettledKids, FixKids, RepairKids;
  }

  lemma {:induction false} SoundKidsStay(k: Kids, c: nat)
    requires SoundKids(k)
    ensures RepairKids(k, c).0 == k
    decreases k
  {
    if k.Kids? {
      SoundAllStay(k.nodes, c);
    }
  }

  lemma {:induction false} SoundAllStay(ns: seq<Node>, c: nat)
    requires SoundAll(ns)
    ensures RepairAll(ns, c).0 == ns
    decreases ns
  {
    if ns != [] {
      SoundStays(ns[0], c);
      SoundAllStay(ns[1..], RepairNode(ns[0], c).1);
    }
  }

  /** The repair is idempotent wherever the counter stands, and changes nothing exactly on the sound trees. */
  lemma RepairIsIdempotent(n: Node, c: nat, d: nat)
    ensures RepairNode(RepairNode(n, c).0, d).0 == RepairNode(n, c).0
    ensures RepairNode(n, c).0 == n <==> Sound(n)
  {
    RepairedIsSound(n, c);
    SoundStays(RepairNode(n, c).0, d);
    if Sound(n) {
      SoundStays(n, c);
    }
    hide *;
  }

  lemma FixIsIdempotent(n: Node, c: nat, d: nat)
    ensures FixInitial(FixInitial(n, c).0, d).0 == FixInitial(n, c).0
    ensures FixInitial(n, c).0 == n <==> Settled(n)
  {
    FixedIsSettled(n, c);
    SettledStays(FixInitial(n, c).0, d);
    if Settled(n) {
      SettledStays(n, c);
    }
    hide *;
  }

  // ---- The repair and the migration

  lemma {:induction false} ShapedIsSettled(n: Node)
    requires Shaped(n)
    ensures Settled(n)
    decreases n
  {
    ShapedKidsAreSettled(n.content);
  }

  lemma {:induction false} ShapedKidsAreSettled(k: Kids)
    requires ShapedKids(k)
    ensures SettledKids(k)
    decreases k
  {
    if k.Kids? {
      ShapedAllAreSettled(k.nodes);
    }
  }

  lemma {:induction false} ShapedAllAreSettled(ns: seq<Node>)
    requires ShapedAll(ns)
    ensures SettledAll(ns)
    decreases ns
  {
    if ns != [] {
      ShapedIsSettled(ns[0]);
      ShapedAllAreSettled(ns[1..]);
    }
  }

  lemma {:induction false} ShapedIsSound(n: Node)
    requires Shaped(n)
    ensures Sound(n)
    decreases n
  {
    if n.contents.Some? {
      ShapedIsSound(n.contents.value);
    }
    ShapedKidsAreSound(n.content);
    if n.attrs.Some? {
      ShapedKidsAreSettled(n.attrs.value.initial);
    }
  }

  lemma {:induction false} ShapedKidsAreSound(k: Kids)
    requires ShapedKids(k)
    ensures SoundKids(k)
    decreases k
  {
    if k.Kids? {
      ShapedAllAreSound(k.nodes);
    }
  }

  lemma {:induction false} ShapedAllAreSound(ns: seq<Node>)
    requires ShapedAll(ns)
    ensures SoundAll(ns)
    decreases ns
  {
    if ns != [] {
      ShapedIsSound(ns[0]);
      ShapedAllAreSound(ns[1..]);
    }
  }

  /** What the migration in full has produced, the repair leaves exactly as it is. */
  lemma MigratedNeedsNoRepair(n: Node, c: nat, d: nat)
    ensures RepairNode(UpdateNode(n, c).0, d).0 == UpdateNode(n, c).0
  {
    UpdateIsMigrated(n, c);
    MigratedIsShaped(n, c);
    ShapedIsSound(UpdateNode(n, c).0);
    SoundStays(UpdateNode(n, c).0, d);
    hide *;
  }

  /** A tree no migration has touched: no ids on lists and tables, no categories, and no lists but `content`. */
  predicate Untouched(n: Node)
    decreases n
  {
    && n.contents.None? && SortOf(n) != Footnote && AttrsOf(n).initial.Absent?
    && (Listed(n) ==> AttrsOf(n).id.None?)
    && if SortOf(n) == Figure then AttrsOf(n).category.None? else UntouchedKids(n.content)
  }

  predicate UntouchedKids(k: Kids)
    decreases k
  {
    k.Kids? ==> UntouchedAll(k.nodes)
  }

  predicate UntouchedAll(ns: seq<Node>)
    decreases ns
  {
    ns != [] ==> Untouched(ns[0]) && UntouchedAll(ns[1..])
  }

  lemma UntouchedTwo(a: Node, b: Node)
    requires Untouched(a) && Untouched(b)
    ensures UntouchedAll([a]) && UntouchedAll([a, b])
  {
    assert [a][1..] == [] && [b][1..] == [] && [a, b][1..] == [b];
  }

  lemma NewContentIsUntouched(n: Node, c: nat)
    requires Untouched(n)
    ensures UntouchedKids(Rewrite(n, c).0.content)
  {
    match SortOf(n)
    case Table => UntouchedTwo(Bare("table_caption"), Inner("table_body", n.content.nodes));
    case EmptyCell => UntouchedTwo(Bare("paragraph"), Bare("paragraph"));
    case Figure =>
      var a := AttrsOf(n);
      if HasWords(a.caption) {
        var t := Bare("text").(text := Some(a.caption.value.s));
        UntouchedTwo(t, t);
      }
      UntouchedTwo(CaptionNode(a), Body(a));
      UntouchedTwo(Body(a), CaptionNode(a));
    case _ =>
  }

  lemma FixIsRewrite(n: Node, c: nat)
    requires Untouched(n)
    ensures !Done(n) && Fix(n, c) == Rewrite(n, c)
  {
    hide Padded, NewFigure;
  }

  /** On a tree the migration has missed altogether, the repair is the migration. */
  lemma {:induction false} RepairIsTheMigration(n: Node, c: nat)
    requires Untouched(n)
    ensures FixInitial(n, c) == UpdateNode(n, c)
    decreases Weight(n), 0, 0
  {
    FixIsRewrite(n, c);
    FixIsLighter(n, c);
    NewContentIsUntouched(n, c);
    RewriteKeepsLists(n, c);
    var (m, c1) := Rewrite(n, c);
    RepairKidsIsTheMigration(m.content, c1);
    assert n.(contents := None) == n;
    hide Fix, Rewrite, FixKids, Untouched, UntouchedKids;
  }

  lemma {:induction false} RepairKidsIsTheMigration(k: Kids, c: nat)
    requires UntouchedKids(k)
    ensures FixKids(k, c) == UpdateKids(k, c)
    decreases KidsWeight(k), 2, 0
  {
    if k.Kids? {
      RepairAllIsTheMigration(k.nodes, c);
    }
  }

  lemma {:induction false} RepairAllIsTheMigration(ns: seq<Node>, c: nat)
    requires UntouchedAll(ns)
    ensures FixAll(ns, c) == UpdateAll(ns, c)
    decreases Total(ns), 1, |ns|
  {
    if ns != [] {
      RepairIsTheMigration(ns[0], c);
      RepairAllIsTheMigration(ns[1..], FixInitial(ns[0], c).1);
    }
  }
}
