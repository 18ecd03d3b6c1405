/**
 What a participant who may only comment, or only read, can do to a readable document.

 The editing engine is any engine whose comment steps leave some view of the node alone; the flat engine at the end,
 characters with sets of marks, is one.
 */
module CommentOnly {
  import opened Prelude
  import opened Access
  import opened Comments
  import opened Link
  import opened Documents
  import opened Session

  const RESTRICTED := {Review, CommentRight, Read, ReadWithoutComments}

  ghost predicate SparesView<N(!new), V(!new)>(cfg: Config<N>, view: N -> V) {
    forall n: N, step: Step ::
      IsCommentStep(step) && cfg.apply(n, step).Some? ==> view(cfg.apply(n, step).value) == view(n)
  }

  /** Everything but comments, version and log. */
  datatype Shown<V> = Shown(title: string, bibliography: Field<Bibliography>, images: ImageRows, view: V)

  /** The live session, its stored content and the row all show the same. */
  ghost predicate Shows<N, V>(core: Core<N>, view: N -> V, shown: Shown<V>) {
    && !core.doc.e2ee && !core.row.e2ee
    && core.doc.title == core.row.title == shown.title
    && core.doc.bibliography == core.row.bibliography == shown.bibliography
    && core.images == shown.images
    && core.node.Some? && view(core.node.value) == shown.view
    && core.doc.content.Plain? && view(core.doc.content.value) == shown.view
    && core.row.content.Plain? && view(core.row.content.value) == shown.view
  }

  lemma SaveShowsTheSame<N, V>(cfg: Config<N>, core: Core<N>, force: bool, view: N -> V, shown: Shown<V>)
    requires Shows(core, view, shown)
    ensures Shows(Save(cfg, core, force), view, shown)
  {
  }

  lemma {:induction false} CommentStepsSpareView<N(!new), V(!new)>(cfg: Config<N>, steps: seq<Step>, n: N, view: N -> V)
    requires SparesView(cfg, view)
    requires forall i :: 0 <= i < |steps| ==> IsCommentStep(steps[i])
    ensures ApplySteps(cfg, steps, n).Some? ==> view(ApplySteps(cfg, steps, n).value) == view(n)
    decreases |steps|
  {
    if steps != [] {
      assert IsCommentStep(steps[0]);
      match cfg.apply(n, steps[0])
      case None =>
      case Some(next) => CommentStepsSpareView(cfg, steps[1..], next, view);
    }
  }

  lemma CommentSidecarsSpare<N, V>(core: Core<N>, d: Diff, role: Role, view: N -> V, shown: Shown<V>)
    requires Shows(core, view, shown) && d.ti.None? && d.bu.None? && d.iu.None?
    ensures Shows(ApplySidecars(Log(core, d), d, role).0, view, shown)
  {
    hide PyFold, Last;
  }

  lemma AcceptedCommentsSpare<N(!new), V(!new)>(cfg: Config<N>, core: Core<N>, roles: map<nat, Role>, id: nat, d: Diff,
                                                view: N -> V, shown: Shown<V>)
    requires id in roles && cfg.saveInterval > 0
    requires SparesView(cfg, view) && Shows(core, view, shown) && OnlyComments(d, false)
    ensures Shows(AcceptPlain(cfg, core, roles, id, d).core, view, shown)
  {
    CommentStepsSpareView(cfg, d.ds.value, core.node.value, view);
    SaveShowsTheSame(cfg, core, false, view, shown);
    if StepsOf(cfg, core, d).Some? {
      var stepped := StepsOf(cfg, core, d).value;
      assert Shows(stepped, view, shown);
      CommentSidecarsSpare(stepped, d, roles[id], view, shown);
      SaveShowsTheSame(cfg, ApplySidecars(Log(stepped, d), d, roles[id]).0, false, view, shown);
    }
    hide Shows, Save, ApplySidecars, StepsOf, Log, ApplySteps, ReadableMail;
  }

  lemma RestrictedDiffSpares<N(!new), V(!new)>(cfg: Config<N>, core: Core<N>, order: seq<nat>, roles: map<nat, Role>,
                                               id: nat, d: Diff, view: N -> V, shown: Shown<V>)
    requires id in roles && roles[id].rights in COMMENT_ONLY && cfg.saveInterval > 0
    requires SparesView(cfg, view) && Shows(core, view, shown)
    ensures Shows(HandleDiff(cfg, core, order, roles, id, d).core, view, shown)
  {
    assert !core.doc.e2ee;
    SaveShowsTheSame(cfg, core, false, view, shown);
    if OnlyComments(d, false) {
      AcceptedCommentsSpare(cfg, core, roles, id, d, view, shown);
    }
    hide Shows, Save, AcceptPlain, AcceptEncrypted, Missing, OnlyComments;
  }

  /** What happens to a session between two opens of the document, or at one. */
  datatype Event =
    | Receives(order: seq<nat>, roles: map<nat, Role>, id: nat, verdict: Verdict<Up>)
    | Saves(force: bool)
    | Reopens

  predicate FromParticipant(e: Event) {
    e.Receives? ==> e.id in e.roles
  }

  predicate Restricted(e: Event)
    requires FromParticipant(e)
  {
    e.Receives? ==> e.roles[e.id].rights in RESTRICTED
  }

  function Happens<N>(cfg: Config<N>, core: Core<N>, e: Event): Core<N>
    requires FromParticipant(e) && cfg.saveInterval > 0
  {
    match e
    case Receives(order, roles, id, verdict) => Dispatch(cfg, core, order, roles, id, verdict).core
    case Saves(force) => Save(cfg, core, force)
    case Reopens => Open(core.row, core.images)
  }

  function Run<N>(cfg: Config<N>, core: Core<N>, es: seq<Event>): Core<N>
    requires (forall i :: 0 <= i < |es| ==> FromParticipant(es[i])) && cfg.saveInterval > 0
    decreases |es|
  {
    if es == [] then core else Run(cfg, Happens(cfg, core, es[0]), es[1..])
  }

  lemma EventSpares<N(!new), V(!new)>(cfg: Config<N>, core: Core<N>, e: Event, view: N -> V, shown: Shown<V>)
    requires FromParticipant(e) && Restricted(e) && cfg.saveInterval > 0
    requires SparesView(cfg, view) && Shows(core, view, shown)
    ensures Shows(Happens(cfg, core, e), view, shown)
  {
    match e
    case Receives(order, roles, id, verdict) =>
      SaveShowsTheSame(cfg, core, false, view, shown);
      if verdict.Handled? && verdict.body.UpDiff? && roles[id].rights in COMMENT_ONLY {
        RestrictedDiffSpares(cfg, core, order, roles, id, verdict.body.d, view, shown);
      }
      hide Shows, Save, HandleDiff, Missing;
    case Saves(force) => SaveShowsTheSame(cfg, core, force, view, shown);
    case Reopens =>
  }

  /** However long they go on, senders who may only comment or read leave the text, the title, the bibliography and the
      images as they were, in the session and in the row. */
  lemma {:induction false} RestrictedRunSpares<N(!new), V(!new)>(cfg: Config<N>, core: Core<N>, es: seq<Event>,
                                                               view: N -> V, shown: Shown<V>)
    requires (forall i :: 0 <= i < |es| ==> FromParticipant(es[i]) && Restricted(es[i])) && cfg.saveInterval > 0
    requires SparesView(cfg, view) && Shows(core, view, shown)
    ensures Shows(Run(cfg, core, es), view, shown)
    decreases |es|
  {
    if es != [] {
      hide Shows, Happens;
      EventSpares(cfg, core, es[0], view, shown);
      RestrictedRunSpares(cfg, Happens(cfg, core, es[0]), es[1..], view, shown);
    }
  }

  /** The same for a document just opened. */
  lemma OpenShows<N, V>(row: Doc<N>, images: ImageRows, view: N -> V)
    requires !row.e2ee && row.content.Plain?
    ensures Shows(Open(row, images), view, Shown(row.title, row.bibliography, images, view(row.content.value)))
  {
  }

  /** The bound is sharp: whoever may change the document at all and is not restricted can change its title. */
  lemma OthersCanRetitle<N>(cfg: Config<N>, core: Core<N>, order: seq<nat>, roles: map<nat, Role>, id: nat)
    requires id in roles && roles[id].rights !in RESTRICTED
    requires cfg.saveInterval > 0 && MayWrite(cfg, core.doc) && !core.doc.e2ee
    ensures exists d :: HandleDiff(cfg, core, order, roles, id, d).core.doc.title != core.doc.title
  {
    var title := if core.doc.title == "" then "x" else "";
    var d := Diff(core.doc.version, Some("r"), None, Some(title), None, None, None, None, None, false);
    assert !Discarded(cfg, core, roles[id], d);
    var logged := Log(core, d);
    assert Last(title, 255) == title;
    assert ApplySidecars(logged, d, roles[id]).0.doc.title == title && ApplySidecars(logged, d, roles[id]).1;
    SaveKeepsTitle(cfg, ApplySidecars(logged, d, roles[id]).0);
    hide Save, ApplySidecars, Log, Last, Discarded;
    assert HandleDiff(cfg, core, order, roles, id, d).core.doc.title == title;
  }

  lemma SaveKeepsTitle<N>(cfg: Config<N>, core: Core<N>)
    ensures Save(cfg, core, false).doc.title == core.doc.title
  {
  }

  lemma LegacyDiffIsDiscarded<N>(cfg: Config<N>, core: Core<N>, order: seq<nat>, roles: map<nat, Role>, id: nat,
                                 d: Diff)
    requires id in roles && cfg.saveInterval > 0 && cfg.e2eeRequired && !core.doc.e2ee
    ensures HandleDiff(cfg, core, order, roles, id, d) == Effect(core, Nothing(roles), true)
  {
  }

  /** The parts of a readable document that a run could change besides what it shows. */
  ghost predicate Unmoved<N>(core: Core<N>, version: int, diffs: seq<Diff>, comments: Field<CommentMap>) {
    && core.doc.version == core.row.version == version
    && core.doc.diffs == core.row.diffs == diffs
    && core.doc.comments == core.row.comments == comments
  }

  lemma LegacyEventChangesNothing<N, V>(cfg: Config<N>, core: Core<N>, e: Event, view: N -> V, shown: Shown<V>,
                                        version: int, diffs: seq<Diff>, comments: Field<CommentMap>)
    requires FromParticipant(e) && cfg.saveInterval > 0 && cfg.e2eeRequired
    requires Shows(core, view, shown) && Unmoved(core, version, diffs, comments)
    ensures Shows(Happens(cfg, core, e), view, shown) && Unmoved(Happens(cfg, core, e), version, diffs, comments)
  {
    match e
    case Receives(order, roles, id, verdict) =>
      assert !core.doc.e2ee;
      SaveShowsTheSame(cfg, core, false, view, shown);
      if verdict.Handled? && verdict.body.UpDiff? {
        LegacyDiffIsDiscarded(cfg, core, order, roles, id, verdict.body.d);
      }
      hide Shows, HandleDiff, Missing;
    case Saves(force) =>
      SaveShowsTheSame(cfg, core, force, view, shown);
      hide Shows;
    case Reopens =>
  }

  /** Where encryption is required, no run changes a readable document, whoever sends: what it shows, its version, its
      log and its comments stay as they are, in the session and in the row. */
  lemma {:induction false} LegacyRunChangesNothing<N, V>(cfg: Config<N>, core: Core<N>, es: seq<Event>, view: N -> V,
                                                        shown: Shown<V>, version: int, diffs: seq<Diff>,
                                                        comments: Field<CommentMap>)
    requires (forall i :: 0 <= i < |es| ==> FromParticipant(es[i])) && cfg.saveInterval > 0 && cfg.e2eeRequired
    requires Shows(core, view, shown) && Unmoved(core, version, diffs, comments)
    ensures Shows(Run(cfg, core, es), view, shown) && Unmoved(Run(cfg, core, es), version, diffs, comments)
    decreases |es|
  {
    if es != [] {
      hide Shows, Unmoved, Happens;
      LegacyEventChangesNothing(cfg, core, es[0], view, shown, version, diffs, comments);
      LegacyRunChangesNothing(cfg, Happens(cfg, core, es[0]), es[1..], view, shown, version, diffs, comments);
    }
  }

  // ---- A flat engine: characters with sets of marks

  datatype Cell = Cell(letter: char, marks: set<Mark>)

  function Marked(doc: seq<Cell>, from: nat, to: nat, mark: Mark, add: bool): (r: seq<Cell>)
    ensures |r| == |doc|
  {
    seq(|doc|, i requires 0 <= i < |doc| =>
      if from <= i < to then doc[i].(marks := if add then doc[i].marks + {mark} else doc[i].marks - {mark}) else doc[i])
  }

  function Typed(text: string): seq<Cell> {
    seq(|text|, i requires 0 <= i < |text| => Cell(text[i], {}))
  }

  function FlatApply(doc: seq<Cell>, step: Step): Option<seq<Cell>> {
    if !(0 <= step.from <= step.to <= |doc|) then None
    else if step.stepType in {"addMark", "removeMark"} && step.mark.Some?
      then Some(Marked(doc, step.from, step.to, step.mark.value, step.stepType == "addMark"))
    else if step.stepType == "replace" then Some(doc[..step.from] + Typed(step.slice) + doc[step.to..])
    else None
  }

  /** The text and all marks but comments. */
  function WithoutComments(doc: seq<Cell>): seq<Cell> {
    seq(|doc|, i requires 0 <= i < |doc| => Cell(doc[i].letter, set m | m in doc[i].marks && m.kind != "comment"))
  }

  lemma CommentMarksAreInvisible(doc: seq<Cell>, from: nat, to: nat, mark: Mark, add: bool)
    requires mark.kind == "comment"
    ensures WithoutComments(Marked(doc, from, to, mark, add)) == WithoutComments(doc)
  {
    var after := Marked(doc, from, to, mark, add);
    forall i | 0 <= i < |doc| ensures WithoutComments(after)[i] == WithoutComments(doc)[i] {
      assert (set m | m in after[i].marks && m.kind != "comment") == (set m | m in doc[i].marks && m.kind != "comment");
    }
  }

  lemma FlatSparesView(cfg: Config<seq<Cell>>)
    requires cfg.apply == FlatApply
    ensures SparesView(cfg, WithoutComments)
  {
    forall n: seq<Cell>, step: Step | IsCommentStep(step) && cfg.apply(n, step).Some?
      ensures WithoutComments(cfg.apply(n, step).value) == WithoutComments(n)
    {
      assert cfg.apply(n, step) == FlatApply(n, step);
      CommentMarksAreInvisible(n, step.from, step.to, step.mark.value, step.stepType == "addMark");
    }
  }

  /** With the flat engine: after any run of restricted senders, letters and other marks stand as they stood. */
  lemma CommentersSpareTheText(cfg: Config<seq<Cell>>, row: Doc<seq<Cell>>, images: ImageRows, es: seq<Event>)
    requires cfg.apply == FlatApply && cfg.saveInterval > 0
    requires !row.e2ee && row.content.Plain?
    requires forall i :: 0 <= i < |es| ==> FromParticipant(es[i]) && Restricted(es[i])
    ensures var core := Run(cfg, Open(row, images), es);
      && core.node.Some? && core.row.content.Plain?
      && WithoutComments(core.node.value) == WithoutComments(row.content.value)
      && WithoutComments(core.row.content.value) == WithoutComments(row.content.value)
      && core.row.title == row.title && core.row.bibliography == row.bibliography && core.images == images
  {
    FlatSparesView(cfg);
    OpenShows(row, images, WithoutComments);
    hide WithoutComments, Run, Open, SparesView;
    RestrictedRunSpares(cfg, Open(row, images), es, WithoutComments,
                        Shown(row.title, row.bibliography, images, WithoutComments(row.content.value)));
  }
}
