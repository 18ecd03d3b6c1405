/** The handlers of the document consumer, as functions of the session state. */
module Session {
  import opened Prelude
  import opened Access
  import opened Comments
  import opened Link
  import opened Documents

  // ---- Mail

  function Nothing(roles: map<nat, Role>): (mail: map<nat, seq<Msg>>)
  {
    map k | k in roles :: []
  }

  function ToOne(roles: map<nat, Role>, id: nat, msgs: seq<Msg>): map<nat, seq<Msg>> {
    map k | k in roles :: if k == id then msgs else []
  }

  function ToAll(roles: map<nat, Role>, msgs: seq<Msg>): map<nat, seq<Msg>> {
    map k | k in roles :: msgs
  }

  // ---- Filters and checks

  /** `sanitize_diff_message`. */
  function Sanitize(d: Diff, role: Role, comments: CommentMap): Diff {
    if d.cu.None? then d else d.(cu := FilterUpdates(d.cu.value, role.rights, role.user, comments))
  }

  predicate IsCommentStep(step: Step) {
    step.stepType in {"addMark", "removeMark"} && step.mark.Some? && step.mark.value.kind == "comment"
  }

  predicate OnlyComments(d: Diff, e2ee: bool) {
    d.ti.None? && d.bu.None? && d.iu.None? &&
    (e2ee || (d.ds.Some? && forall i :: 0 <= i < |d.ds.value| ==> IsCommentStep(d.ds.value[i])))
  }

  /** `e2ee_write_guard`. */
  predicate MayWrite<N>(cfg: Config<N>, doc: Doc<N>) {
    !cfg.e2eeRequired || doc.e2ee
  }

  // ---- Applying steps and sidecar updates

  function ApplySteps<N>(cfg: Config<N>, steps: seq<Step>, node: N): Option<N>
    decreases |steps|
  {
    if steps == [] then Some(node)
    else match cfg.apply(node, steps[0])
      case None => None
      case Some(next) => ApplySteps(cfg, steps[1..], next)
  }

  /** Applying two batches in a row is applying their concatenation; a failure anywhere fails the whole. */
  lemma {:induction false} ApplyConcat<N>(cfg: Config<N>, a: seq<Step>, b: seq<Step>, node: N)
    ensures ApplySteps(cfg, a + b, node) ==
      match ApplySteps(cfg, a, node) case None => None case Some(next) => ApplySteps(cfg, b, next)
    decreases |a|
  {
    if a == [] {
      assert a + b == b;
    } else {
      assert (a + b)[1..] == a[1..] + b;
      match cfg.apply(node, a[0])
      case None =>
      case Some(next) => ApplyConcat(cfg, a[1..], b, next);
    }
  }

  /** Together with this, applying a concatenation says what applying any batch is. */
  lemma ApplyNoneOrOne<N>(cfg: Config<N>, step: Step, node: N)
    ensures ApplySteps(cfg, [], node) == Some(node) && ApplySteps(cfg, [step], node) == cfg.apply(node, step)
  {
    assert [step][1..] == [];
  }

  method Apply<N>(cfg: Config<N>, steps: seq<Step>, node: N) returns (result: Option<N>)
    ensures result == ApplySteps(cfg, steps, node)
  {
    var current := node;
    var i := 0;
    while i < |steps|
      invariant 0 <= i <= |steps|
      invariant ApplySteps(cfg, steps, node) == ApplySteps(cfg, steps[i..], current)
    {
      assert steps[i..][1..] == steps[i + 1..];
      match cfg.apply(current, steps[i])
      case None => return None;
      case Some(next) => current := next;
      i := i + 1;
    }
    return Some(current);
  }

  /** `update_bibliography`: an entry without a type, deleting an unknown entry and setting one without a reference
      raise. */
  function UpdateBibliography(m: Bibliography, us: seq<BibUpdate>): (Bibliography, bool)
    decreases |us|
  {
    if us == [] then (m, true)
    else if us[0].id.None? then UpdateBibliography(m, us[1..])
    else
      var id := Canon(us[0].id.value);
      match us[0].op
      case NoBibType => (m, false)
      case OtherBib => UpdateBibliography(m, us[1..])
      case SetReference(None) => (m, false)
      case SetReference(Some(r)) => UpdateBibliography(m[id := r], us[1..])
      case DeleteReference => if id in m then UpdateBibliography(m - {id}, us[1..]) else (m, false)
  }

  /** `update_document_images`. */
  function UpdateImages(rows: ImageRows, us: seq<ImageUpdate>, role: Role): (ImageRows, bool)
    decreases |us|
  {
    if us == [] then (rows, true)
    else
      var (next, ok) := UpdateImage(rows, us[0], role);
      if ok then UpdateImages(next, us[1..], role) else (next, false)
  }

  /** Asking whether the sender has an image raises unless the sender is a user of the database, and storing a null
      title or copyright raises. Nobody has the image without a number. */
  function UpdateImage(rows: ImageRows, u: ImageUpdate, role: Role): (ImageRows, bool) {
    match u.id
    case NoImageId => (rows, true)
    case NullImageId => (rows, u.op.OtherImage? || u.op.DeleteImage? || (u.op.SetImage? && role.stored))
    case BadImageId => (rows, u.op.OtherImage?)
    case ImageId(n) =>
      match u.op
      case NoImageType => (rows, false)
      case OtherImage => (rows, true)
      case DeleteImage => (rows - {n}, true)
      case SetImage(mine, title, copyright) =>
        if !role.stored then (rows, false)
        else if !mine then (rows, true)
        else if !Given(title) || !Given(copyright) then (rows, false)
        else (rows[n := ImageRow(PyStr(title.value), copyright.value)], true)
  }

  predicate Given(j: Option<Json>) {
    j.Some? && j.value != Null
  }

  /** Title, comments, bibliography and images of an accepted diff, in the order the handler applies them. The title
      is also written to the row at once. */
  function ApplyTitle<N>(core: Core<N>, d: Diff): Core<N> {
    if d.ti.None? then core
    else
      var title := Last(d.ti.value, 255);
      core.(doc := core.doc.(title := title), row := core.row.(title := title))
  }

  function ApplyComments<N>(core: Core<N>, d: Diff): (Core<N>, bool) {
    if d.cu.None? then (core, true)
    else if core.doc.comments.Cipher? then (core, false)
    else
      var after := PyFold(core.doc.comments.value, d.cu.value);
      (core.(doc := core.doc.(comments := Plain(after.comments))), after.ok)
  }

  function ApplyBibliography<N>(core: Core<N>, d: Diff): (Core<N>, bool) {
    if d.bu.None? then (core, true)
    else if core.doc.bibliography.Cipher? then (core, false)
    else
      var (bibliography, ok) := UpdateBibliography(core.doc.bibliography.value, d.bu.value);
      (core.(doc := core.doc.(bibliography := Plain(bibliography))), ok)
  }

  function ApplyImages<N>(core: Core<N>, d: Diff, role: Role): (Core<N>, bool) {
    if d.iu.None? then (core, true)
    else var (images, ok) := UpdateImages(core.images, d.iu.value, role); (core.(images := images), ok)
  }

  function ApplySidecars<N>(core: Core<N>, d: Diff, role: Role): (Core<N>, bool) {
    var (c1, ok1) := ApplyComments(ApplyTitle(core, d), d);
    if !ok1 then (c1, false)
    else
      var (c2, ok2) := ApplyBibliography(c1, d);
      if !ok2 then (c2, false) else ApplyImages(c2, d, role)
  }

  // ---- When the updates of a diff do not raise

  /** The entries have what their branches read, and those to be deleted are there at their turn. */
  predicate EntriesFit(known: set<Json>, us: seq<BibUpdate>)
    decreases |us|
  {
    us == [] ||
    if us[0].id.None? then EntriesFit(known, us[1..])
    else
      var id := Canon(us[0].id.value);
      match us[0].op
      case NoBibType => false
      case OtherBib => EntriesFit(known, us[1..])
      case SetReference(r) => r.Some? && EntriesFit(known + {id}, us[1..])
      case DeleteReference => id in known && EntriesFit(known - {id}, us[1..])
  }

  predicate ImageFits(u: ImageUpdate, role: Role) {
    || u.id.NoImageId?
    || u.op.OtherImage?
    || (!u.id.BadImageId? && u.op.DeleteImage?)
    || (!u.id.BadImageId? && u.op.SetImage? && role.stored
        && (u.id.NullImageId? || !u.op.mine || (Given(u.op.title) && Given(u.op.copyright))))
  }

  lemma {:induction false} BibliographyOkIff(m: Bibliography, us: seq<BibUpdate>)
    ensures UpdateBibliography(m, us).1 <==> EntriesFit(m.Keys, us)
    decreases |us|
  {
    if us != [] {
      if us[0].id.None? || us[0].op.OtherBib? {
        BibliographyOkIff(m, us[1..]);
      } else if us[0].op.SetReference? && us[0].op.reference.Some? {
        var m' := m[Canon(us[0].id.value) := us[0].op.reference.value];
        assert m'.Keys == m.Keys + {Canon(us[0].id.value)};
        BibliographyOkIff(m', us[1..]);
      } else if us[0].op.DeleteReference? && Canon(us[0].id.value) in m {
        var m' := m - {Canon(us[0].id.value)};
        assert m'.Keys == m.Keys - {Canon(us[0].id.value)};
        BibliographyOkIff(m', us[1..]);
      }
    }
  }

  lemma {:induction false} ImagesOkIff(rows: ImageRows, us: seq<ImageUpdate>, role: Role)
    ensures UpdateImages(rows, us, role).1 <==> forall i :: 0 <= i < |us| ==> ImageFits(us[i], role)
    decreases |us|
  {
    if us != [] {
      var (next, ok) := UpdateImage(rows, us[0], role);
      assert ok <==> ImageFits(us[0], role);
      ImagesOkIff(next, us[1..], role);
      assert forall i :: 1 <= i < |us| ==> us[i] == us[1..][i - 1];
      if ok && forall i :: 0 <= i < |us[1..]| ==> ImageFits(us[1..][i], role) {
        forall i | 0 <= i < |us| ensures ImageFits(us[i], role) {
        }
      }
      if forall i :: 0 <= i < |us| ==> ImageFits(us[i], role) {
        forall i | 0 <= i < |us[1..]| ensures ImageFits(us[1..][i], role) {
          assert ImageFits(us[i + 1], role);
        }
      }
    }
  }

  predicate CommentsFit<N>(doc: Doc<N>, d: Diff) {
    d.cu.Some? ==> doc.comments.Plain? && BatchFits(doc.comments.value, d.cu.value)
  }

  predicate BibliographyFits<N>(doc: Doc<N>, d: Diff) {
    d.bu.Some? ==> doc.bibliography.Plain? && EntriesFit(doc.bibliography.value.Keys, d.bu.value)
  }

  predicate ImagesFit(d: Diff, role: Role) {
    d.iu.Some? ==> forall i :: 0 <= i < |d.iu.value| ==> ImageFits(d.iu.value[i], role)
  }

  predicate UpdatesFit<N>(doc: Doc<N>, d: Diff, role: Role) {
    CommentsFit(doc, d) && BibliographyFits(doc, d) && ImagesFit(d, role)
  }

  lemma CommentsRunIff<N>(core: Core<N>, d: Diff)
    ensures ApplyComments(core, d).1 <==> CommentsFit(core.doc, d)
    ensures ApplyComments(core, d).0.doc.bibliography == core.doc.bibliography
  {
    if d.cu.Some? && core.doc.comments.Plain? {
      FoldOkIff(core.doc.comments.value, d.cu.value);
    }
    hide PyFold, BatchFits;
  }

  lemma BibliographyRunsIff<N>(core: Core<N>, d: Diff)
    ensures ApplyBibliography(core, d).1 <==> BibliographyFits(core.doc, d)
  {
    if d.bu.Some? && core.doc.bibliography.Plain? {
      BibliographyOkIff(core.doc.bibliography.value, d.bu.value);
    }
    hide EntriesFit, UpdateBibliography;
  }

  lemma ImagesRunIff<N>(core: Core<N>, d: Diff, role: Role)
    ensures ApplyImages(core, d, role).1 <==> ImagesFit(d, role)
  {
    if d.iu.Some? {
      ImagesOkIff(core.images, d.iu.value, role);
    }
    hide ImageFits, UpdateImages;
  }

  /** The sidecar updates of a diff run to their end exactly when they fit the document. */
  lemma SidecarsOkIff<N>(core: Core<N>, d: Diff, role: Role)
    ensures ApplySidecars(core, d, role).1 <==> UpdatesFit(core.doc, d, role)
  {
    var titled := ApplyTitle(core, d);
    var c1 := ApplyComments(titled, d).0;
    assert titled.doc.comments == core.doc.comments && titled.doc.bibliography == core.doc.bibliography;
    CommentsRunIff(titled, d);
    BibliographyRunsIff(c1, d);
    ImagesRunIff(ApplyBibliography(c1, d).0, d, role);
    hide ApplyTitle, ApplyComments, ApplyBibliography, ApplyImages, BatchFits, EntriesFit, ImagesFit;
  }

  // ---- Saving

  /** The columns `save_document` writes, with the given content. */
  function WriteRow<N>(row: Doc<N>, doc: Doc<N>, content: Field<N>): Doc<N> {
    var r := row.(title := doc.title, version := doc.version, content := content, diffs := doc.diffs,
                  comments := doc.comments, bibliography := doc.bibliography);
    if doc.e2ee then r.(e2ee := true, salt := doc.salt, iterations := doc.iterations,
                        snapshotVersion := doc.snapshotVersion)
    else r
  }

  predicate SaveIsSkipped<N>(core: Core<N>, force: bool) {
    !force && core.doc.version == core.lastSaved
  }

  /** The write itself. With the Rust engine the content column is written only from the engine's node, and the
      in-memory content is not refreshed. */
  function SaveWrite<N>(cfg: Config<N>, core: Core<N>): Core<N> {
    if core.nodeUpdates && core.node.Some? && !core.doc.e2ee then
      var content := Plain(core.node.value);
      if cfg.rust then core.(row := WriteRow(core.row, core.doc, content))
      else core.(doc := core.doc.(content := content), row := WriteRow(core.row, core.doc, content))
    else if cfg.rust && !core.doc.e2ee then core.(row := WriteRow(core.row, core.doc, core.row.content))
    else core.(row := WriteRow(core.row, core.doc, core.doc.content))
  }

  /** What happens when the write has returned. */
  function SaveResume<N>(core: Core<N>): Core<N> {
    core.(lastSaved := core.doc.version, nodeUpdates := core.doc.e2ee && core.nodeUpdates)
  }

  function Save<N>(cfg: Config<N>, core: Core<N>, force: bool): Core<N> {
    if SaveIsSkipped(core, force) then core else SaveResume(SaveWrite(cfg, core))
  }

  // ---- Diffs

  function Log<N>(core: Core<N>, d: Diff): Core<N> {
    core.(doc := core.doc.(diffs := Last(core.doc.diffs + [d], HISTORY_LENGTH), version := core.doc.version + 1))
  }

  function FirstWriter(order: seq<nat>, roles: map<nat, Role>): Option<nat> {
    if order == [] then None
    else if order[0] in roles && roles[order[0]].rights == Write then Some(order[0])
    else FirstWriter(order[1..], roles)
  }

  /** `reject_message` for a diff; without a `rid` it raises. */
  function Reject<N>(core: Core<N>, roles: map<nat, Role>, id: nat, d: Diff): Effect<N> {
    if d.rid.Some? then Effect(core, ToOne(roles, id, [RejectDiff(d.rid.value)]), true)
    else Effect(core, Nothing(roles), false)
  }

  function Unfixable<N>(cfg: Config<N>, core: Core<N>, roles: map<nat, Role>, id: nat): Effect<N> {
    Effect(Save(cfg, core, false), ToOne(roles, id, [Refetch]), true)
  }

  /** The stored diffs a client at version `from` is missing, as this recipient may see them. */
  function Missing(doc_diffs: seq<Diff>, behind: nat, role: Role, comments: CommentMap): (msgs: seq<Msg>)
    requires behind <= |doc_diffs|
  {
    var tail := Last(doc_diffs, behind);
    seq(behind, i requires 0 <= i < behind =>
      DiffMsg(Sanitize(tail[i].(serverFix := true), role, comments)))
  }

  function AcceptEncrypted<N>(cfg: Config<N>, core: Core<N>, order: seq<nat>, roles: map<nat, Role>, id: nat, d: Diff)
    : Effect<N>
    requires id in roles && cfg.saveInterval > 0
  {
    if d.salt.None? then Reject(core, roles, id, d)
    else if core.doc.salt.None? then Effect(core, Nothing(roles), false)
    else if d.salt != core.doc.salt then Reject(core, roles, id, d)
    else if d.ep.None? then Reject(core, roles, id, d)
    else
      var c := Log(core, d);
      var asked := if c.doc.version % cfg.saveInterval == 0 then FirstWriter(order, roles) else None;
      Effect(c, map k | k in roles ::
        (if asked == Some(k) then [RequestSnapshot(c.doc.version)] else [])
        + (if k != id then [DiffMsg(d)] else if d.rid.Some? then [ConfirmDiff(d.rid.value)] else []), true)
  }

  /** The node after the diff's steps, if it carries any; `None` when a step cannot be applied. */
  function StepsOf<N>(cfg: Config<N>, core: Core<N>, d: Diff): Option<Core<N>> {
    if d.ds.None? then Some(core)
    else if core.node.None? then None
    else match ApplySteps(cfg, d.ds.value, core.node.value)
      case None => None
      case Some(next) => Some(core.(node := Some(next), nodeUpdates := true))
  }

  function ReadableMail(roles: map<nat, Role>, id: nat, d: Diff, comments: CommentMap): map<nat, seq<Msg>>
    requires d.rid.Some?
  {
    map k | k in roles ::
      if k == id then [ConfirmDiff(d.rid.value)] else [DiffMsg(Sanitize(d, roles[k], comments))]
  }

  /** Log, sidecar updates and, when the interval is reached, a save; false when an update raises. */
  function Recorded<N>(cfg: Config<N>, stepped: Core<N>, d: Diff, role: Role): (Core<N>, bool)
    requires cfg.saveInterval > 0
  {
    var (c, ok) := ApplySidecars(Log(stepped, d), d, role);
    (if ok && c.doc.version % cfg.saveInterval == 0 then Save(cfg, c, false) else c, ok)
  }

  /** What follows once the steps have been applied; `confirm_diff` raises without a `rid`. */
  function Relayed<N>(cfg: Config<N>, stepped: Core<N>, roles: map<nat, Role>, id: nat, d: Diff): Effect<N>
    requires id in roles && cfg.saveInterval > 0
  {
    var (c, ok) := Recorded(cfg, stepped, d, roles[id]);
    if !ok || d.rid.None? then Effect(c, Nothing(roles), false)
    else Effect(c, ReadableMail(roles, id, d, PlainComments(c.doc.comments)), true)
  }

  /** Steps that cannot be applied: everyone refetches and hears whose diff it was. */
  function PatchFails<N>(cfg: Config<N>, core: Core<N>, roles: map<nat, Role>, id: nat): Effect<N>
    requires id in roles
  {
    Effect(Save(cfg, core, false), ToAll(roles, [Refetch, PatchError(roles[id].user)]), true)
  }

  function AcceptPlain<N>(cfg: Config<N>, core: Core<N>, roles: map<nat, Role>, id: nat, d: Diff): Effect<N>
    requires id in roles && cfg.saveInterval > 0
  {
    match StepsOf(cfg, core, d)
    case None => PatchFails(cfg, core, roles, id)
    case Some(stepped) => Relayed(cfg, stepped, roles, id, d)
  }

  /** The rights checks that silently discard a diff. */
  predicate Discarded<N>(cfg: Config<N>, core: Core<N>, role: Role, d: Diff) {
    || !MayWrite(cfg, core.doc)
    || (role.rights in COMMENT_ONLY && !OnlyComments(d, core.doc.e2ee))
    || (role.rights in OWN_COMMENTS_ONLY && d.cu.Some?
        && !OwnsUpdates(d.cu.value, role.user, PlainComments(core.doc.comments)))
  }

  function HandleDiff<N>(cfg: Config<N>, core: Core<N>, order: seq<nat>, roles: map<nat, Role>, id: nat, d: Diff)
    : Effect<N>
    requires id in roles && cfg.saveInterval > 0
  {
    var pv, dv := d.v, core.doc.version;
    if Discarded(cfg, core, roles[id], d) then Effect(core, Nothing(roles), true)
    else if pv == dv then
      if core.doc.e2ee then AcceptEncrypted(cfg, core, order, roles, id, d)
      else AcceptPlain(cfg, core, roles, id, d)
    else if pv < dv && pv + |core.doc.diffs| >= dv then
      var missing := Missing(core.doc.diffs, dv - pv, roles[id], PlainComments(core.doc.comments));
      Effect(core, ToOne(roles, id, missing), true)
    else Unfixable(cfg, core, roles, id)
  }

  /** `check_version`; comparing a missing version raises. */
  function CheckVersion<N>(cfg: Config<N>, core: Core<N>, roles: map<nat, Role>, id: nat, v: Option<int>, offline: bool)
    : Effect<N>
    requires id in roles
  {
    var dv := core.doc.version;
    if v.None? then Effect(core, Nothing(roles), false)
    else if v.value == dv then Effect(core, ToOne(roles, id, [ConfirmVersion(dv)]), true)
    else if v.value < dv && !offline && v.value + |core.doc.diffs| >= dv then
      Effect(core, ToOne(roles, id, Missing(core.doc.diffs, dv - v.value, roles[id], PlainComments(core.doc.comments))
                                    + [ConfirmVersion(dv)]), true)
    else Unfixable(cfg, core, roles, id)
  }

  const NOTICES := Notices(Refetch, AccessDenied)

  /** A resend that overflows the buffer saves before it asks the client to refetch. */
  function Resaved<N>(cfg: Config<N>, core: Core<N>, k: Conn<Msg>, msg: Incoming<Up>): Core<N> {
    if Overflows(k, msg) then Save(cfg, core, false) else core
  }

  /** What is done with a frame once its connection has judged it. */
  function Dispatch<N>(cfg: Config<N>, core: Core<N>, order: seq<nat>, roles: map<nat, Role>, id: nat,
                       verdict: Verdict<Up>): Effect<N>
    requires id in roles && cfg.saveInterval > 0
  {
    match verdict
    case Handled(_, UpDiff(d)) =>
      if roles[id].rights in CAN_UPDATE_DOCUMENT then HandleDiff(cfg, core, order, roles, id, d)
      else Effect(core, Nothing(roles), true)
    case Handled(_, UpCheck(v, offline)) => CheckVersion(cfg, core, roles, id, v, offline)
    case Rejected(_, UpDiff(d)) => Reject(core, roles, id, d)
    case _ => Effect(core, Nothing(roles), true)
  }

  // ---- Joining and leaving

  function Largest(order: seq<nat>): nat {
    if order == [] then 0
    else if order[0] >= Largest(order[1..]) then order[0] else Largest(order[1..])
  }

  function NewId(order: seq<nat>): nat {
    if order == [] then 0 else Largest(order) + 1
  }

  lemma LargestIsUpperBound(order: seq<nat>, k: nat)
    requires k in order
    ensures k <= Largest(order)
  {
  }

  lemma NewIdIsFresh(order: seq<nat>)
    ensures NewId(order) !in order
  {
    if NewId(order) in order {
      LargestIsUpperBound(order, NewId(order));
    }
  }

  function Drop(order: seq<nat>, id: nat): seq<nat> {
    if order == [] then [] else (if order[0] == id then [] else [order[0]]) + Drop(order[1..], id)
  }

  lemma DropKeepsOthers(order: seq<nat>, id: nat, k: nat)
    requires k in order && k != id
    ensures k in Drop(order, id)
  {
    if order[0] != k {
      DropKeepsOthers(order[1..], id, k);
    }
  }

  /** `send_participant_list`: only those who may communicate hear about the participants. */
  function ParticipantList(roles: map<nat, Role>): map<nat, seq<Msg>> {
    map k | k in roles :: if roles[k].rights in CAN_COMMUNICATE then [Connections] else []
  }

  function Append(a: map<nat, seq<Msg>>, b: map<nat, seq<Msg>>): map<nat, seq<Msg>>
    requires a.Keys == b.Keys
  {
    map k | k in a :: a[k] + b[k]
  }

  /** The messages of `subscribe` once participant `id` is among `roles`. */
  function Greet<N>(cfg: Config<N>, core: Core<N>, roles: map<nat, Role>, id: nat, connection: int, v: Option<int>)
    : (e: Effect<N>)
    requires id in roles
    ensures e.mail.Keys == roles.Keys
  {
    var announce := if roles[id].rights in CAN_COMMUNICATE then ParticipantList(roles) else Nothing(roles);
    if connection < 1 then
      var checked := CheckVersion(cfg, core, roles, id, v, false);
      var mail := Append(ToOne(roles, id, [Subscribed, SessionInfo(id, roles[id].rights)]), checked.mail);
      if checked.ok then checked.(mail := Append(mail, announce)) else checked.(mail := mail)
    else Effect(core, Append(ToOne(roles, id, [Subscribed, AccessRight(roles[id].rights)]), announce), true)
  }

  /** Opening a document that nobody is working on. */
  function Open<N>(row: Doc<N>, images: ImageRows): Core<N> {
    var node := if row.e2ee || row.content.Cipher? then None else Some(row.content.value);
    Core(row, node, false, row.version, row, images)
  }
}
