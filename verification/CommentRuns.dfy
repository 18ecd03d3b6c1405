/** What becomes of one comment of a readable document over whole runs, and what the ownership check does for it. */
module CommentRuns {
  import opened Prelude
  import opened Access
  import opened Comments
  import opened Link
  import opened Documents
  import opened Session
  import opened Replay
  import opened CommentOnly

  // ---- One batch

  /** How many entries are carried out, the one that raises included. */
  function Reached(m: CommentMap, us: seq<Update>): (n: nat)
    ensures n <= |us|
    decreases |us|
  {
    if us == [] then 0
    else
      var next := PyStep(m, us[0]);
      1 + if next.ok then Reached(next.comments, us[1..]) else 0
  }

  ghost predicate Holds(m: CommentMap, id: Json, c: Comment) {
    id in m && m[id] == c
  }

  /** The comment is `c` after every single entry. */
  ghost predicate HoldsThroughBatch(m: CommentMap, us: seq<Update>, id: Json, c: Comment)
    decreases |us|
  {
    us == [] ||
    var next := PyStep(m, us[0]);
    Holds(next.comments, id, c) && (next.ok ==> HoldsThroughBatch(next.comments, us[1..], id, c))
  }

  predicate Spares(us: seq<Update>, n: nat, id: Json, c: Comment)
    requires n <= |us|
  {
    forall i :: 0 <= i < n ==> !(Names(us[i], id) && Rewrites(c, us[i]))
  }

  /** A batch keeps a comment at every moment exactly when none of the entries carried out names and rewrites it. */
  lemma {:induction false} BatchKeepsIff(m: CommentMap, us: seq<Update>, id: Json, c: Comment)
    requires Holds(m, id, c)
    ensures HoldsThroughBatch(m, us, id, c) <==> Spares(us, Reached(m, us), id, c)
    ensures HoldsThroughBatch(m, us, id, c) ==> Holds(PyFold(m, us).comments, id, c)
    decreases |us|
  {
    hide PyStep, Rewrites, Names;
    if us != [] {
      StepKeepsIff(m, us[0], id);
      var next := PyStep(m, us[0]);
      if Holds(next.comments, id, c) && next.ok {
        BatchKeepsIff(next.comments, us[1..], id, c);
        SparesCons(us, Reached(next.comments, us[1..]), id, c);
      }
    }
  }

  lemma SparesCons(us: seq<Update>, n: nat, id: Json, c: Comment)
    requires us != [] && n <= |us| - 1
    ensures Spares(us, n + 1, id, c) <==> !(Names(us[0], id) && Rewrites(c, us[0])) && Spares(us[1..], n, id, c)
  {
    hide Names, Rewrites;
    assert forall i :: 0 <= i < n ==> us[1..][i] == us[i + 1];
    if !(Names(us[0], id) && Rewrites(c, us[0])) && Spares(us[1..], n, id, c) {
      forall i | 0 <= i < n + 1 ensures !(Names(us[i], id) && Rewrites(c, us[i])) {
        if i > 0 {
          assert us[i] == us[1..][i - 1];
        }
      }
    }
    if Spares(us, n + 1, id, c) {
      forall i | 0 <= i < n ensures !(Names(us[1..][i], id) && Rewrites(c, us[1..][i])) {
        assert us[1..][i] == us[i + 1];
      }
    }
  }

  // ---- Runs

  ghost predicate Readable<N>(core: Core<N>) {
    !core.doc.e2ee && !core.row.e2ee && core.doc.comments.Plain? && core.row.comments.Plain?
  }

  /** The comment entries an event has carried out: those of an accepted diff. */
  function Batch<N>(cfg: Config<N>, core: Core<N>, e: Event): seq<Update>
    requires FromParticipant(e)
  {
    if e.Receives? && e.verdict.Handled? && e.verdict.body.UpDiff? && e.roles[e.id].rights in CAN_UPDATE_DOCUMENT
       && Accepts(cfg, core, e.roles[e.id], e.verdict.body.d) && e.verdict.body.d.cu.Some?
    then e.verdict.body.d.cu.value else []
  }

  /** The comment is `c` at every moment of the run, between the entries of a batch as well. */
  ghost predicate HoldsThroughout<N>(cfg: Config<N>, core: Core<N>, es: seq<Event>, id: Json, c: Comment)
    requires (forall i :: 0 <= i < |es| ==> FromParticipant(es[i])) && cfg.saveInterval > 0
    decreases |es|
  {
    es == [] ||
    var next := Happens(cfg, core, es[0]);
    && HoldsThroughBatch(PlainComments(core.doc.comments), Batch(cfg, core, es[0]), id, c)
    && Holds(PlainComments(next.doc.comments), id, c)
    && HoldsThroughout(cfg, next, es[1..], id, c)
  }

  /** No entry of a batch accepted at its turn names the comment and would change `c`. */
  ghost predicate NeverRewritten<N>(cfg: Config<N>, core: Core<N>, es: seq<Event>, id: Json, c: Comment)
    requires (forall i :: 0 <= i < |es| ==> FromParticipant(es[i])) && cfg.saveInterval > 0
    decreases |es|
  {
    es == [] ||
    var us := Batch(cfg, core, es[0]);
    && Spares(us, Reached(PlainComments(core.doc.comments), us), id, c)
    && NeverRewritten(cfg, Happens(cfg, core, es[0]), es[1..], id, c)
  }

  lemma SidecarComments<N>(core: Core<N>, d: Diff, role: Role)
    requires core.doc.comments.Plain?
    ensures ApplySidecars(core, d, role).0.doc.comments
         == if d.cu.Some? then Plain(PyFold(core.doc.comments.value, d.cu.value).comments) else core.doc.comments
  {
    hide PyFold, Last, UpdateBibliography;
  }

  lemma RelayedComments<N>(cfg: Config<N>, stepped: Core<N>, roles: map<nat, Role>, id: nat, d: Diff)
    requires id in roles && cfg.saveInterval > 0 && Readable(stepped)
    ensures var c := Relayed(cfg, stepped, roles, id, d).core;
      && Readable(c)
      && c.doc.comments == (if d.cu.Some? then Plain(PyFold(stepped.doc.comments.value, d.cu.value).comments)
                            else stepped.doc.comments)
      && (c.row.comments == stepped.row.comments || c.row.comments == c.doc.comments)
  {
    var logged := Log(stepped, d);
    assert Readable(logged) && logged.doc.comments == stepped.doc.comments && logged.row == stepped.row;
    SidecarComments(logged, d, roles[id]);
    SidecarsLeaveTheRest(logged, d, roles[id]);
    SaveComments(cfg, ApplySidecars(logged, d, roles[id]).0);
    hide ApplySidecars, Save, PyFold, ReadableMail, Log;
  }

  lemma AcceptedComments<N>(cfg: Config<N>, core: Core<N>, roles: map<nat, Role>, id: nat, d: Diff)
    requires id in roles && cfg.saveInterval > 0 && Readable(core)
    ensures var c := AcceptPlain(cfg, core, roles, id, d).core;
      && Readable(c)
      && c.doc.comments == (if StepsOf(cfg, core, d).Some? && d.cu.Some?
                            then Plain(PyFold(core.doc.comments.value, d.cu.value).comments) else core.doc.comments)
      && (c.row.comments == core.row.comments || c.row.comments == c.doc.comments)
  {
    SaveComments(cfg, core);
    if StepsOf(cfg, core, d).Some? {
      var stepped := StepsOf(cfg, core, d).value;
      assert Readable(stepped) && stepped.doc == core.doc && stepped.row == core.row;
      RelayedComments(cfg, stepped, roles, id, d);
    }
    hide Relayed, Save, StepsOf, PyFold;
  }

  lemma DiffComments<N>(cfg: Config<N>, core: Core<N>, order: seq<nat>, roles: map<nat, Role>, id: nat, d: Diff)
    requires id in roles && cfg.saveInterval > 0 && Readable(core)
    ensures var c := HandleDiff(cfg, core, order, roles, id, d).core;
      && Readable(c)
      && c.doc.comments == (if Accepts(cfg, core, roles[id], d) && d.cu.Some?
                            then Plain(PyFold(core.doc.comments.value, d.cu.value).comments) else core.doc.comments)
      && (c.row.comments == core.row.comments || c.row.comments == c.doc.comments)
  {
    SaveComments(cfg, core);
    AcceptedComments(cfg, core, roles, id, d);
    hide AcceptPlain, Save, StepsOf, PyFold, Missing, Discarded;
  }

  lemma SaveComments<N>(cfg: Config<N>, core: Core<N>)
    ensures forall force :: var c := Save(cfg, core, force);
      && c.doc == core.doc.(content := c.doc.content)
      && c.row.e2ee == (core.row.e2ee || (core.doc.e2ee && !SaveIsSkipped(core, force)))
      && (c.row.comments == core.row.comments || c.row.comments == core.doc.comments)
  {
  }

  lemma EventComments<N>(cfg: Config<N>, core: Core<N>, e: Event)
    requires FromParticipant(e) && cfg.saveInterval > 0 && Readable(core)
    ensures var c := Happens(cfg, core, e);
      && Readable(c)
      && c.doc.comments == (if e.Reopens? then core.row.comments
                            else Plain(PyFold(core.doc.comments.value, Batch(cfg, core, e)).comments))
      && (c.row.comments == core.row.comments || c.row.comments == c.doc.comments)
  {
    SaveComments(cfg, core);
    match e
    case Receives(order, roles, id, verdict) =>
      if verdict.Handled? && verdict.body.UpDiff? {
        DiffComments(cfg, core, order, roles, id, verdict.body.d);
      }
      hide HandleDiff, Save, Accepts, Missing, PyStep;
    case Saves(force) =>
      hide Save;
    case Reopens =>
  }

  lemma EventKeepsIff<N>(cfg: Config<N>, core: Core<N>, e: Event, id: Json, c: Comment)
    requires FromParticipant(e) && cfg.saveInterval > 0 && Readable(core)
    requires Holds(core.doc.comments.value, id, c) && Holds(core.row.comments.value, id, c)
    ensures var us, next := Batch(cfg, core, e), Happens(cfg, core, e);
      var kept := HoldsThroughBatch(core.doc.comments.value, us, id, c)
                  && Holds(PlainComments(next.doc.comments), id, c);
      && Readable(next)
      && (kept <==> Spares(us, Reached(core.doc.comments.value, us), id, c))
      && (kept ==> Holds(next.doc.comments.value, id, c) && Holds(next.row.comments.value, id, c))
  {
    EventComments(cfg, core, e);
    BatchKeepsIff(core.doc.comments.value, Batch(cfg, core, e), id, c);
    assert e.Reopens? ==> Batch(cfg, core, e) == [];
    hide Happens, Batch, PyStep, Spares;
  }

  /** In any run, whoever sends, a comment keeps its value at every moment exactly when no entry of an accepted batch
      names it and would change it: entries for other ids, whatever their kind, do not matter. */
  lemma {:induction false} CommentKeepsIff<N>(cfg: Config<N>, core: Core<N>, es: seq<Event>, id: Json, c: Comment)
    requires (forall i :: 0 <= i < |es| ==> FromParticipant(es[i])) && cfg.saveInterval > 0
    requires Readable(core)
    requires Holds(core.doc.comments.value, id, c) && Holds(core.row.comments.value, id, c)
    ensures HoldsThroughout(cfg, core, es, id, c) <==> NeverRewritten(cfg, core, es, id, c)
    decreases |es|
  {
    if es != [] {
      hide Happens, Batch, Readable, HoldsThroughBatch, Spares, Holds;
      assert Readable(core);
      EventKeepsIff(cfg, core, es[0], id, c);
      PlainOfReadable(core);
      var us := Batch(cfg, core, es[0]);
      if Spares(us, Reached(core.doc.comments.value, us), id, c) {
        var next := Happens(cfg, core, es[0]);
        PlainOfReadable(next);
        CommentKeepsIff(cfg, next, es[1..], id, c);
      }
    }
  }

  lemma PlainOfReadable<N>(core: Core<N>)
    requires Readable(core)
    ensures core.doc.comments == Plain(PlainComments(core.doc.comments))
  {
  }

  // ---- The ownership check

  /** In one diff a review role cannot delete anyone else's comment: there still is a comment with that id. */
  lemma OneDiffDeletesNoForeignComment<N>(cfg: Config<N>, core: Core<N>, order: seq<nat>, roles: map<nat, Role>,
                                          id: nat, d: Diff, comment: Json)
    requires id in roles && roles[id].rights in OWN_COMMENTS_ONLY && cfg.saveInterval > 0 && !core.doc.e2ee
    requires core.doc.comments.Plain? && comment in core.doc.comments.value
    requires PyStr(core.doc.comments.value[comment].user) != roles[id].user
    ensures var after := HandleDiff(cfg, core, order, roles, id, d).core.doc.comments;
      after.Plain? && comment in after.value
  {
    hide PyFold, Missing, ApplySteps, Last, WriteRow, UpdateBibliography, OwnsUpdates, ReadableMail;
    if d.cu.Some? && !Discarded(cfg, core, roles[id], d) {
      OwnBatchKeepsOthersKeys(core.doc.comments.value, d.cu.value, roles[id].user, comment);
    }
    if StepsOf(cfg, core, d).Some? {
      SidecarComments(Log(StepsOf(cfg, core, d).value, d), d, roles[id]);
      hide ApplySidecars;
    }
  }

  /** Two diffs of a review role, each of which passes the ownership check: the first puts a comment of the sender's own
      in place of another user's, the second deletes it. */
  lemma TwoDiffsRemoveAForeignComment<N>(cfg: Config<N>, core: Core<N>, order: seq<nat>, roles: map<nat, Role>, id: nat,
                                         c: Comment, d1: Diff, d2: Diff)
    requires id in roles && roles[id] == Role(Review, "8", false, true) && cfg.saveInterval > 0
    requires !core.doc.e2ee && !cfg.e2eeRequired && core.node.Some?
    requires core.doc.comments == Plain(map[Str("x") := c]) && c.user == Str("7")
    requires d1 == Diff(core.doc.version, Some("1"), Some([]), None, Some([Replacing("8")]), None, None, None, None,
                        false)
    requires d2 == d1.(v := core.doc.version + 1, rid := Some("2"), cu := Some([Deleting()]))
    ensures var e1 := HandleDiff(cfg, core, order, roles, id, d1);
      var e2 := HandleDiff(cfg, e1.core, order, roles, id, d2);
      && Accepts(cfg, core, roles[id], d1) && Accepts(cfg, e1.core, roles[id], d2)
      && e2.core.doc.comments == Plain(map[])
  {
    var m := map[Str("x") := c];
    assert OwnsUpdates(d1.cu.value, "8", m);
    FoldOne(m, Replacing("8"));
    VersionCountsAccepted(cfg, core, order, roles, id, d1);
    assert Accepts(cfg, core, roles[id], d1);
    FirstDiffReplaces(cfg, core, order, roles, id, d1, Replacing("8"));
    var core1 := HandleDiff(cfg, core, order, roles, id, d1).core;
    var m1 := PyFold(m, d1.cu.value).comments;
    assert m1 == map[Str("x") := PyCreate(Replacing("8")).value];
    assert OwnsUpdates(d2.cu.value, "8", m1);
    FoldOne(m1, Deleting());
    FirstDiffReplaces(cfg, core1, order, roles, id, d2, Deleting());
    assert m1 - {Str("x")} == map[];
    hide HandleDiff;
  }

  /** An entry that creates comment "x" for `user`. */
  function Replacing(user: string): Update {
    Update(Some(Str("x")), Create, Some(Str(user)), Some(Str(user)), Some(Null), Some(Null), Some(Num("0", "0")),
           Some(Str("")), Some(Bool(false)), Some(Bool(false)), None, None, None, [])
  }

  function Deleting(): Update {
    Update(Some(Str("x")), Delete, None, None, None, None, None, None, None, None, None, None, None, [])
  }

  lemma FoldOne(m: CommentMap, u: Update)
    ensures PyFold(m, [u]) == PyStep(m, u)
  {
    assert [u][1..] == [];
    hide PyStep;
  }

  /** A diff with nothing but one comment entry. */
  lemma FirstDiffReplaces<N>(cfg: Config<N>, core: Core<N>, order: seq<nat>, roles: map<nat, Role>, id: nat, d: Diff,
                             u: Update)
    requires id in roles && cfg.saveInterval > 0 && !core.doc.e2ee && core.doc.comments.Plain?
    requires Accepts(cfg, core, roles[id], d) && d.cu == Some([u])
    ensures var c := HandleDiff(cfg, core, order, roles, id, d).core;
      c.doc.comments == Plain(PyStep(core.doc.comments.value, u).comments)
  {
    FoldOne(core.doc.comments.value, u);
    var stepped := StepsOf(cfg, core, d).value;
    SidecarComments(Log(stepped, d), d, roles[id]);
    SaveComments(cfg, ApplySidecars(Log(stepped, d), d, roles[id]).0);
    hide ApplySidecars, Save, StepsOf, PyFold, PyStep, Missing, Discarded, ReadableMail, Last;
  }
}
