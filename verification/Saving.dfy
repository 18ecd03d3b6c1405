/** The dirty-flag save: it leaves the row as if everything had always been written. */
module Saving {
  import opened Prelude
  import opened Access
  import opened Comments
  import opened Link
  import opened Documents
  import opened Session
  import opened Replay

  /** The live document: of a readable document the engine's node is the content. */
  ghost function Live<N>(core: Core<N>): Doc<N>
    requires core.doc.e2ee || core.node.Some?
  {
    if core.doc.e2ee then core.doc else core.doc.(content := Plain(core.node.value))
  }

  /** The row holds the live document: every column an editor would miss. */
  ghost predicate RowIsLive<N>(core: Core<N>) {
    && (core.doc.e2ee || core.node.Some?)
    && var live := Live(core);
    && core.row.version == live.version && core.row.title == live.title && core.row.content == live.content
    && core.row.diffs == live.diffs && core.row.comments == live.comments
    && core.row.bibliography == live.bibliography
    && (live.e2ee ==> core.row.e2ee && core.row.salt == live.salt && core.row.iterations == live.iterations
                      && core.row.snapshotVersion == live.snapshotVersion)
  }

  /** The copy of the content that the Python engine's next save without a node would write. */
  ghost predicate CopyIsCurrent<N>(cfg: Config<N>, core: Core<N>) {
    !core.doc.e2ee && !cfg.rust ==> core.node.Some? && core.doc.content == Plain(core.node.value)
  }

  /** Holds at every moment, also while a save is waiting for the database. */
  ghost predicate Sound<N>(cfg: Config<N>, core: Core<N>) {
    && (core.doc.e2ee || core.node.Some?)
    && core.row.version <= core.doc.version
    && (core.doc.version == core.row.version ==> RowIsLive(core) && CopyIsCurrent(cfg, core))
    && (!core.doc.e2ee && !core.nodeUpdates ==>
          core.row.content == Plain(core.node.value) && CopyIsCurrent(cfg, core))
  }

  /** Holds whenever no save is under way. */
  ghost predicate SaveInv<N>(cfg: Config<N>, core: Core<N>) {
    Sound(cfg, core) && core.lastSaved <= core.row.version
  }

  lemma OpenIsSaved<N>(cfg: Config<N>, row: Doc<N>, images: ImageRows)
    requires row.e2ee || row.content.Plain?
    ensures SaveInv(cfg, Open(row, images)) && RowIsLive(Open(row, images))
  {
  }

  lemma WriteMakesRowLive<N>(cfg: Config<N>, core: Core<N>)
    requires Sound(cfg, core)
    ensures Sound(cfg, SaveWrite(cfg, core)) && RowIsLive(SaveWrite(cfg, core))
    ensures SaveWrite(cfg, core).doc == core.doc.(content := SaveWrite(cfg, core).doc.content)
  {
  }

  /** After any save, skipped or not, forced or not, under either engine, the row equals the live document. */
  lemma SaveRefinesWritingEverything<N>(cfg: Config<N>, core: Core<N>, force: bool)
    requires SaveInv(cfg, core)
    ensures RowIsLive(Save(cfg, core, force))
    ensures SaveInv(cfg, Save(cfg, core, force))
  {
    hide WriteRow;
    WriteMakesRowLive(cfg, core);
  }

  /** The flags and columns after a save, whatever the state before. One that is not forced is skipped when the version
      is the one noted; the engine's node is the content to be written when it has changed. */
  lemma SaveIs<N>(cfg: Config<N>, was: Core<N>, force: bool)
    ensures var now := Save(cfg, was, force);
      var fromNode := !was.doc.e2ee && was.nodeUpdates && was.node.Some?;
      if !force && was.doc.version == was.lastSaved then now == was
      else
        && now.lastSaved == was.doc.version && now.node == was.node && now.images == was.images
        && (was.doc.e2ee ==> now.nodeUpdates == was.nodeUpdates) && (!was.doc.e2ee ==> !now.nodeUpdates)
        && now.doc == was.doc.(content := now.doc.content)
        && now.doc.content == (if fromNode && !cfg.rust then Plain(was.node.value) else was.doc.content)
        && now.row.content == (if fromNode then Plain(was.node.value)
                               else if cfg.rust && !was.doc.e2ee then was.row.content else was.doc.content)
        && now.row.version == was.doc.version && now.row.title == was.doc.title && now.row.diffs == was.doc.diffs
        && now.row.comments == was.doc.comments && now.row.bibliography == was.doc.bibliography
        && (if was.doc.e2ee then
              && now.row.e2ee && now.row.salt == was.doc.salt && now.row.iterations == was.doc.iterations
              && now.row.snapshotVersion == was.doc.snapshotVersion
            else
              && now.row.e2ee == was.row.e2ee && now.row.salt == was.row.salt
              && now.row.iterations == was.row.iterations && now.row.snapshotVersion == was.row.snapshotVersion)
  {
  }

  lemma SaveKeepsSound<N>(cfg: Config<N>, core: Core<N>)
    requires Sound(cfg, core)
    ensures Sound(cfg, Save(cfg, core, false))
    ensures core.lastSaved <= core.row.version ==> SaveInv(cfg, Save(cfg, core, false))
  {
    hide WriteRow;
    WriteMakesRowLive(cfg, core);
  }

  /** A readable document's stored content is only ever replaced by what the engine holds now, never by an older copy
      kept in memory. */
  lemma StaleContentNeverWritten<N>(cfg: Config<N>, core: Core<N>, force: bool)
    requires Sound(cfg, core) && !core.doc.e2ee
    ensures var row := Save(cfg, core, force).row;
      row.content == core.row.content || row.content == Plain(core.node.value)
  {
  }

  lemma LogKeepsSound<N>(cfg: Config<N>, core: Core<N>, stepped: Core<N>, d: Diff)
    requires Sound(cfg, core)
    requires core.doc.e2ee ==> stepped == core
    requires !core.doc.e2ee ==> StepsOf(cfg, core, d) == Some(stepped)
    ensures var c := Log(stepped, d);
      Sound(cfg, c) && c.row == core.row && c.lastSaved == core.lastSaved && c.row.version < c.doc.version
      && c.doc.e2ee == core.doc.e2ee
  {
    hide ApplySteps, Last;
  }

  lemma SidecarsKeepSound<N>(cfg: Config<N>, core: Core<N>, d: Diff, role: Role)
    requires Sound(cfg, core) && core.row.version < core.doc.version
    ensures var c := ApplySidecars(core, d, role).0;
      Sound(cfg, c) && c.row.version == core.row.version && c.lastSaved == core.lastSaved
  {
    SidecarsLeaveTheRest(core, d, role);
    hide ApplySidecars, RowIsLive;
  }

  lemma PlainDiffKeepsSound<N>(cfg: Config<N>, core: Core<N>, roles: map<nat, Role>, id: nat, d: Diff)
    requires id in roles && cfg.saveInterval > 0 && !core.doc.e2ee
    requires Sound(cfg, core)
    ensures var c := AcceptPlain(cfg, core, roles, id, d).core;
      Sound(cfg, c) && (SaveInv(cfg, core) ==> SaveInv(cfg, c))
  {
    hide Save, ApplySidecars, Log, StepsOf, Sound, FilterUpdates;
    SaveKeepsSound(cfg, core);
    var stepped := StepsOf(cfg, core, d);
    if stepped.Some? {
      LogKeepsSound(cfg, core, stepped.value, d);
      var logged := Log(stepped.value, d);
      SidecarsKeepSound(cfg, logged, d, roles[id]);
      SaveKeepsSound(cfg, ApplySidecars(logged, d, roles[id]).0);
    }
  }

  lemma EncryptedDiffKeepsSound<N>(cfg: Config<N>, core: Core<N>, order: seq<nat>, roles: map<nat, Role>, id: nat,
                                   d: Diff)
    requires id in roles && cfg.saveInterval > 0 && core.doc.e2ee
    requires Sound(cfg, core)
    ensures var c := AcceptEncrypted(cfg, core, order, roles, id, d).core;
      Sound(cfg, c) && (SaveInv(cfg, core) ==> SaveInv(cfg, c))
  {
    hide Log, FirstWriter, Sound;
    LogKeepsSound(cfg, core, core, d);
  }

  lemma DiffKeepsSound<N>(cfg: Config<N>, core: Core<N>, order: seq<nat>, roles: map<nat, Role>, id: nat, d: Diff)
    requires id in roles && cfg.saveInterval > 0
    requires Sound(cfg, core)
    ensures var c := HandleDiff(cfg, core, order, roles, id, d).core;
      Sound(cfg, c) && (SaveInv(cfg, core) ==> SaveInv(cfg, c))
  {
    hide AcceptPlain, AcceptEncrypted, Save, Missing, Discarded, Sound;
    SaveKeepsSound(cfg, core);
    if core.doc.e2ee {
      EncryptedDiffKeepsSound(cfg, core, order, roles, id, d);
    } else {
      PlainDiffKeepsSound(cfg, core, roles, id, d);
    }
  }

  lemma CheckKeepsSound<N>(cfg: Config<N>, core: Core<N>, roles: map<nat, Role>, id: nat, v: Option<int>, offline: bool)
    requires id in roles
    requires Sound(cfg, core)
    ensures var c := CheckVersion(cfg, core, roles, id, v, offline).core;
      Sound(cfg, c) && (SaveInv(cfg, core) ==> SaveInv(cfg, c))
  {
    hide Save, Missing, Sound;
    SaveKeepsSound(cfg, core);
  }

  /** A new title is in the row at once, with at most 255 characters, whether or not a save follows. */
  lemma TitleIsStoredAtOnce<N>(cfg: Config<N>, core: Core<N>, order: seq<nat>, roles: map<nat, Role>, id: nat, d: Diff)
    requires id in roles && cfg.saveInterval > 0 && !core.doc.e2ee
    requires Accepts(cfg, core, roles[id], d) && d.ti.Some?
    ensures var c := HandleDiff(cfg, core, order, roles, id, d).core;
      c.doc.title == c.row.title && |c.doc.title| <= 255 && c.doc.title == Last(d.ti.value, 255)
  {
    SidecarTitle(Log(StepsOf(cfg, core, d).value, d), d, roles[id]);
    hide ApplySidecars, StepsOf, Last, Discarded, Missing, ReadableMail;
  }

  lemma SidecarTitle<N>(core: Core<N>, d: Diff, role: Role)
    requires d.ti.Some?
    ensures var c := ApplySidecars(core, d, role).0;
      c.doc.title == c.row.title == Last(d.ti.value, 255)
  {
    hide PyFold, UpdateBibliography;
  }

  /** When the version reaches a multiple of the interval, a diff that can be relayed leaves the row live. */
  lemma EveryIntervalIsSaved<N>(cfg: Config<N>, core: Core<N>, order: seq<nat>, roles: map<nat, Role>, id: nat, d: Diff)
    requires id in roles && cfg.saveInterval > 0 && !core.doc.e2ee && SaveInv(cfg, core)
    requires Accepts(cfg, core, roles[id], d) && CanBeRelayed(core, roles[id], d)
    requires (core.doc.version + 1) % cfg.saveInterval == 0
    ensures RowIsLive(HandleDiff(cfg, core, order, roles, id, d).core)
  {
    var stepped := StepsOf(cfg, core, d).value;
    var logged := Log(stepped, d);
    assert Sound(cfg, core);
    LogKeepsSound(cfg, core, stepped, d);
    SidecarsKeepSound(cfg, logged, d, roles[id]);
    SidecarsLeaveTheRest(logged, d, roles[id]);
    assert stepped.doc == core.doc;
    SaveRefinesWritingEverything(cfg, ApplySidecars(logged, d, roles[id]).0, false);
    UpdatesFitTheLogged(cfg, core, d, roles[id]);
    hide UpdatesFit, ApplySidecars, StepsOf, Save, RowIsLive, Sound, Discarded, Missing, ReadableMail, Last;
  }

  // ---- Who is told to refetch finds what there is

  ghost predicate TellsToRefetch(mail: map<nat, seq<Msg>>) {
    exists k :: k in mail && Refetch in mail[k]
  }

  lemma PlainRefetch<N>(cfg: Config<N>, core: Core<N>, roles: map<nat, Role>, id: nat, d: Diff)
    requires cfg.saveInterval > 0 && id in roles
    ensures var f := AcceptPlain(cfg, core, roles, id, d);
      TellsToRefetch(f.mail) ==> f.core == Save(cfg, core, false)
  {
    hide Save, StepsOf, Recorded, Sanitize;
  }

  lemma SealedDoesNotRefetch<N>(cfg: Config<N>, core: Core<N>, order: seq<nat>, roles: map<nat, Role>, id: nat, d: Diff)
    requires cfg.saveInterval > 0 && id in roles
    ensures !TellsToRefetch(AcceptEncrypted(cfg, core, order, roles, id, d).mail)
  {
    hide Log, FirstWriter;
  }

  lemma LateDiffsDoNotRefetch(diffs: seq<Diff>, behind: nat, role: Role, comments: CommentMap)
    requires behind <= |diffs|
    ensures Refetch !in Missing(diffs, behind, role, comments)
  {
    hide Sanitize;
  }

  lemma OneMailRefetches(roles: map<nat, Role>, id: nat, msgs: seq<Msg>)
    ensures TellsToRefetch(ToOne(roles, id, msgs)) ==> Refetch in msgs
    ensures !TellsToRefetch(Nothing(roles))
  {
  }

  /** Whenever a diff leads to a refetch, whoever's, the row has been brought up to date before. */
  lemma RefetchFindsTheRow<N>(cfg: Config<N>, core: Core<N>, order: seq<nat>, roles: map<nat, Role>, id: nat, d: Diff)
    requires cfg.saveInterval > 0 && id in roles && SaveInv(cfg, core)
    ensures var f := HandleDiff(cfg, core, order, roles, id, d); TellsToRefetch(f.mail) ==> RowIsLive(f.core)
  {
    SaveRefinesWritingEverything(cfg, core, false);
    PlainRefetch(cfg, core, roles, id, d);
    SealedDoesNotRefetch(cfg, core, order, roles, id, d);
    OneMailRefetches(roles, id, []);
    if d.v < core.doc.version <= d.v + |core.doc.diffs| {
      var late := Missing(core.doc.diffs, core.doc.version - d.v, roles[id], PlainComments(core.doc.comments));
      OneMailRefetches(roles, id, late);
      LateDiffsDoNotRefetch(core.doc.diffs, core.doc.version - d.v, roles[id], PlainComments(core.doc.comments));
    }
    hide RowIsLive, SaveInv, Save, Discarded, AcceptPlain, AcceptEncrypted, Missing, TellsToRefetch, Nothing, ToOne;
  }

  /** The same for a question. */
  lemma AskingFindsTheRow<N>(cfg: Config<N>, core: Core<N>, roles: map<nat, Role>, id: nat, v: Option<int>,
                             offline: bool)
    requires id in roles && SaveInv(cfg, core)
    ensures var f := CheckVersion(cfg, core, roles, id, v, offline); TellsToRefetch(f.mail) ==> RowIsLive(f.core)
  {
    SaveRefinesWritingEverything(cfg, core, false);
    OneMailRefetches(roles, id, [ConfirmVersion(core.doc.version)]);
    if v.Some? && v.value < core.doc.version <= v.value + |core.doc.diffs| {
      var late := Missing(core.doc.diffs, core.doc.version - v.value, roles[id], PlainComments(core.doc.comments));
      OneMailRefetches(roles, id, late + [ConfirmVersion(core.doc.version)]);
      LateDiffsDoNotRefetch(core.doc.diffs, core.doc.version - v.value, roles[id], PlainComments(core.doc.comments));
    }
    hide RowIsLive, SaveInv, Save, Missing, TellsToRefetch, Nothing, ToOne;
  }

  /** So has a resend that gets no further than a refetch. */
  lemma OverflowFindsTheRow<N>(cfg: Config<N>, core: Core<N>, k: Conn<Msg>, msg: Incoming<Up>)
    requires SaveInv(cfg, core)
    requires match msg
      case ResendRequest(from) => k.server - from > |k.lastTen|
      case Counted(Some(c), Some(s), _) => c == k.client + 1 && s < k.server && k.server - s > |k.lastTen|
      case _ => false
    ensures RowIsLive(Resaved(cfg, core, k, msg))
    ensures ReceiveFrames(k, msg, NOTICES) != [] && ReceiveFrames(k, msg, NOTICES)[0].body == Refetch
  {
    SaveRefinesWritingEverything(cfg, core, false);
    hide RowIsLive, SaveInv, Save;
  }

  // ---- Which diffs leave the row level with the document

  /** The guards of the branches that save: steps that cannot be applied, a version out of reach, and the interval. */
  predicate Flushes<N>(cfg: Config<N>, core: Core<N>, role: Role, d: Diff)
    requires cfg.saveInterval > 0
  {
    && !Discarded(cfg, core, role, d)
    && (if d.v == core.doc.version then
          !core.doc.e2ee && (StepsOf(cfg, core, d).None?
                             || (UpdatesFit(core.doc, d, role) && (core.doc.version + 1) % cfg.saveInterval == 0))
        else d.v > core.doc.version || d.v + |core.doc.diffs| < core.doc.version)
  }

  lemma SaveFlushes<N>(cfg: Config<N>, core: Core<N>)
    requires SaveInv(cfg, core)
    ensures Save(cfg, core, false).row.version == Save(cfg, core, false).doc.version
  {
    SaveRefinesWritingEverything(cfg, core, false);
    hide SaveInv, Save;
  }

  /** One readable diff on the current version: is the row level with the document afterwards? */
  lemma ReadableFlushesIff<N>(cfg: Config<N>, core: Core<N>, roles: map<nat, Role>, id: nat, d: Diff)
    requires id in roles && cfg.saveInterval > 0 && !core.doc.e2ee && SaveInv(cfg, core)
    ensures var c := AcceptPlain(cfg, core, roles, id, d).core;
      c.row.version == c.doc.version
      <==> StepsOf(cfg, core, d).None?
           || (UpdatesFit(core.doc, d, roles[id]) && (core.doc.version + 1) % cfg.saveInterval == 0)
  {
    SaveFlushes(cfg, core);
    if StepsOf(cfg, core, d).Some? {
      var stepped := StepsOf(cfg, core, d).value;
      var logged := Log(stepped, d);
      assert stepped.doc == core.doc && stepped.row == core.row;
      assert Sound(cfg, core);
      LogKeepsSound(cfg, core, stepped, d);
      SidecarsKeepSound(cfg, logged, d, roles[id]);
      SidecarsLeaveTheRest(logged, d, roles[id]);
      UpdatesFitTheLogged(cfg, core, d, roles[id]);
      SaveFlushes(cfg, ApplySidecars(logged, d, roles[id]).0);
    }
    hide ApplySidecars, StepsOf, Save, Sound, RowIsLive, UpdatesFit, ReadableMail, Last;
  }

  lemma EncryptedLeavesTheRow<N>(cfg: Config<N>, core: Core<N>, order: seq<nat>, roles: map<nat, Role>, id: nat,
                                 d: Diff)
    requires id in roles && cfg.saveInterval > 0
    ensures var c := AcceptEncrypted(cfg, core, order, roles, id, d).core;
      c.row == core.row && c.doc.version == core.doc.version + if SaltMatches(core, d) then 1 else 0
  {
    hide FirstWriter, Last;
  }

  /** Handling one diff leaves the row level with the document exactly when it flushes, or was not accepted and found
      them level. */
  lemma DiffFlushesIff<N>(cfg: Config<N>, core: Core<N>, order: seq<nat>, roles: map<nat, Role>, id: nat, d: Diff)
    requires id in roles && cfg.saveInterval > 0 && SaveInv(cfg, core)
    ensures var c := HandleDiff(cfg, core, order, roles, id, d).core;
      c.row.version == c.doc.version
      <==> Flushes(cfg, core, roles[id], d)
           || (!Accepts(cfg, core, roles[id], d) && core.row.version == core.doc.version)
  {
    assert Sound(cfg, core);
    SaveFlushes(cfg, core);
    if core.doc.e2ee {
      EncryptedLeavesTheRow(cfg, core, order, roles, id, d);
    } else {
      ReadableFlushesIff(cfg, core, roles, id, d);
    }
    hide AcceptPlain, AcceptEncrypted, Sound, SaveInv, Save, Discarded, Missing, StepsOf, UpdatesFit, Last, FirstWriter;
  }
}
