/** A save is not one step: everything else goes on while it waits for the database, and the version it then notes as
    saved is the one it finds on return. */
module SaveGap {
  import opened Prelude
  import opened Access
  import opened Comments
  import opened Documents
  import opened Session
  import opened Replay
  import opened Saving
  import opened Epoch

  /** What can happen while a save waits: anything but closing the document. */
  ghost predicate InGap<N>(es: seq<Event<N>>) {
    forall i :: 0 <= i < |es| ==> !es[i].Reopens?
  }

  /** The row already holds what the re-key brings. */
  predicate RowHolds<N>(row: Doc<N>, doc: Doc<N>, m: Rekey)
    requires RekeyOk(doc, m)
  {
    && row.e2ee && row.version == doc.version && row.diffs == []
    && row.salt == m.salt && row.iterations == m.iterations.n && row.snapshotVersion == m.v
    && row.content == Cipher(m.content.value) && row.comments == Cipher(m.comments.value)
    && row.bibliography == Cipher(m.bibliography.value)
    && row.title == if m.title.Some? then m.title.value.value else doc.title
  }

  predicate SnapshotIsStored<N>(cfg: Config<N>, core: Core<N>, role: Role, m: Snapshot<N>) {
    && role.rights == Write && MayWrite(cfg, core.doc) && core.doc.e2ee && cfg.e2eeEnabled
    && core.doc.salt.Some? && SnapshotOk(core.doc, m)
  }

  /** The branch of `check_version` that saves. */
  predicate CheckSaves<N>(core: Core<N>, v: Option<int>, offline: bool) {
    v.Some? && v.value != core.doc.version
    && (v.value > core.doc.version || offline || v.value + |core.doc.diffs| < core.doc.version)
  }

  /** Whether something waits to be written after an event, given whether something did before. A save that is not
      forced is skipped when the version is the one noted. */
  ghost predicate Waits<N>(cfg: Config<N>, x: Vault<N>, e: Event<N>, before: bool)
    requires cfg.saveInterval > 0 && Sane(e)
  {
    var unlessSaved := before && x.core.doc.version == x.core.lastSaved;
    match e
    case Diffs(_, roles, id, d) =>
      if Accepts(cfg, x.core, roles[id], d) then !Flushes(cfg, x.core, roles[id], d)
      else if Flushes(cfg, x.core, roles[id], d) then unlessSaved
      else before
    case Checks(_, _, v, offline) => if CheckSaves(x.core, v, offline) then unlessSaved else before
    case Snapshots(roles, id, m) => before && !SnapshotIsStored(cfg, x.core, roles[id], m)
    case Rekeys(roles, id, m, allowed) =>
      if !ReachesTransaction(cfg, x, roles[id], m, allowed) then before
      else !Complete(m.keys.value) && !RowHolds(x.core.row, x.core.doc, m)
    case Saves(force) => if force then false else unlessSaved
    case Reopens => false
  }

  /** The same after all of them. */
  ghost predicate LeavesUnsaved<N>(cfg: Config<N>, x: Vault<N>, es: seq<Event<N>>, before: bool)
    requires cfg.saveInterval > 0 && AnyRun(es)
    decreases |es|
  {
    if es == [] then before
    else LeavesUnsaved(cfg, Happens(cfg, x, es[0]), es[1..], Waits(cfg, x, es[0], before))
  }

  /** Holds while a save waits, whatever happens: an encrypted document may have been re-keyed half way. */
  ghost predicate GapInv<N>(cfg: Config<N>, core: Core<N>) {
    && core.lastSaved <= core.row.version <= core.doc.version
    && (!core.doc.e2ee ==> SaveInv(cfg, core))
  }

  /** How a save that is not forced changes what waits. */
  lemma SaveInGap<N>(cfg: Config<N>, core: Core<N>, force: bool)
    requires GapInv(cfg, core)
    ensures var c := Save(cfg, core, force);
      && GapInv(cfg, c)
      && (RowIsLive(c) <==> force || RowIsLive(core) || core.doc.version != core.lastSaved)
  {
    if !core.doc.e2ee {
      SaveRefinesWritingEverything(cfg, core, force);
      assert Sound(cfg, core);
    } else {
      EncryptedSave(cfg, core);
    }
    hide SaveWrite, SaveResume, RowIsLive;
  }

  lemma EncryptedSave<N>(cfg: Config<N>, core: Core<N>)
    requires core.doc.e2ee
    ensures var c := SaveResume(SaveWrite(cfg, core));
      && RowIsLive(c) && c.doc == core.doc && c.row.version == c.doc.version == c.lastSaved
  {
  }

  lemma PlainLevelIsLive<N>(cfg: Config<N>, core: Core<N>)
    requires SaveInv(cfg, core)
    ensures RowIsLive(core) <==> core.row.version == core.doc.version
    ensures core.doc.version == core.lastSaved ==> core.row.version == core.doc.version
    ensures core.lastSaved <= core.row.version <= core.doc.version
    ensures Sound(cfg, core)
  {
  }

  lemma PlainDiffInGap<N>(cfg: Config<N>, x: Vault<N>, order: seq<nat>, roles: map<nat, Role>, id: nat, d: Diff)
    requires id in roles && cfg.saveInterval > 0 && !x.core.doc.e2ee && SaveInv(cfg, x.core)
    ensures var c := HandleDiff(cfg, x.core, order, roles, id, d).core;
      && GapInv(cfg, c)
      && (RowIsLive(c) <==> !Waits(cfg, x, Diffs(order, roles, id, d), !RowIsLive(x.core)))
  {
    PlainLevelIsLive(cfg, x.core);
    DiffFlushesIff(cfg, x.core, order, roles, id, d);
    DiffKeepsSound(cfg, x.core, order, roles, id, d);
    PlainLevelIsLive(cfg, HandleDiff(cfg, x.core, order, roles, id, d).core);
    hide HandleDiff, SaveInv, Sound, RowIsLive, Flushes, Accepts;
  }

  lemma AcceptedCiphertextWaits<N>(cfg: Config<N>, core: Core<N>, order: seq<nat>, roles: map<nat, Role>, id: nat,
                                   d: Diff)
    requires id in roles && cfg.saveInterval > 0 && core.doc.e2ee && GapInv(cfg, core)
    ensures var c := AcceptEncrypted(cfg, core, order, roles, id, d).core;
      && GapInv(cfg, c)
      && (RowIsLive(c) <==> RowIsLive(core) && !SaltMatches(core, d))
  {
    hide FirstWriter, Last;
  }

  lemma EncryptedDiffInGap<N>(cfg: Config<N>, x: Vault<N>, order: seq<nat>, roles: map<nat, Role>, id: nat, d: Diff)
    requires id in roles && cfg.saveInterval > 0 && x.core.doc.e2ee && GapInv(cfg, x.core)
    ensures var c := HandleDiff(cfg, x.core, order, roles, id, d).core;
      && GapInv(cfg, c)
      && (RowIsLive(c) <==> !Waits(cfg, x, Diffs(order, roles, id, d), !RowIsLive(x.core)))
  {
    AcceptedCiphertextWaits(cfg, x.core, order, roles, id, d);
    SaveInGap(cfg, x.core, false);
    hide AcceptEncrypted, AcceptPlain, Save, GapInv, RowIsLive, Discarded, Missing, SaltMatches, StepsOf, UpdatesFit;
  }

  lemma CheckInGap<N>(cfg: Config<N>, x: Vault<N>, roles: map<nat, Role>, id: nat, v: Option<int>, offline: bool)
    requires id in roles && cfg.saveInterval > 0 && GapInv(cfg, x.core)
    ensures var c := CheckVersion(cfg, x.core, roles, id, v, offline).core;
      && GapInv(cfg, c)
      && (RowIsLive(c) <==> !Waits(cfg, x, Checks(roles, id, v, offline), !RowIsLive(x.core)))
  {
    SaveInGap(cfg, x.core, false);
    hide Save, GapInv, RowIsLive, Missing;
  }

  lemma SnapshotInGap<N>(cfg: Config<N>, x: Vault<N>, roles: map<nat, Role>, id: nat, m: Snapshot<N>)
    requires id in roles && cfg.saveInterval > 0 && GapInv(cfg, x.core)
    ensures var c := HandleSnapshot(cfg, x.core, roles, id, m).core;
      && GapInv(cfg, c)
      && (RowIsLive(c) <==> !Waits(cfg, x, Snapshots(roles, id, m), !RowIsLive(x.core)))
  {
    if SnapshotIsStored(cfg, x.core, roles[id], m) {
      var stored := x.core.(doc := StoreSnapshot(x.core.doc, m));
      assert GapInv(cfg, stored);
      SaveInGap(cfg, stored, true);
    }
    hide Save, GapInv, RowIsLive, StoreSnapshot, SnapshotOk, ValidParams;
  }

  lemma RekeyInGap<N>(cfg: Config<N>, x: Vault<N>, roles: map<nat, Role>, id: nat, m: Rekey, allowed: set<int>)
    requires id in roles && cfg.saveInterval > 0 && GapInv(cfg, x.core)
    ensures var c := HandleRekey(cfg, x, roles, id, m, allowed).vault.core;
      && GapInv(cfg, c)
      && (RowIsLive(c) <==> !Waits(cfg, x, Rekeys(roles, id, m, allowed), !RowIsLive(x.core)))
  {
    hide WriteKeys, ValidParams, Complete, Holders;
  }

  /** One event: the row is live afterwards exactly when nothing waits. */
  lemma EventInGap<N>(cfg: Config<N>, x: Vault<N>, e: Event<N>)
    requires cfg.saveInterval > 0 && Sane(e) && !e.Reopens? && GapInv(cfg, x.core)
    ensures var c := Happens(cfg, x, e).core;
      GapInv(cfg, c) && (RowIsLive(c) <==> !Waits(cfg, x, e, !RowIsLive(x.core)))
  {
    match e
    case Diffs(order, roles, id, d) =>
      if x.core.doc.e2ee {
        EncryptedDiffInGap(cfg, x, order, roles, id, d);
      } else {
        PlainDiffInGap(cfg, x, order, roles, id, d);
      }
    case Checks(roles, id, v, offline) => CheckInGap(cfg, x, roles, id, v, offline);
    case Snapshots(roles, id, m) => SnapshotInGap(cfg, x, roles, id, m);
    case Rekeys(roles, id, m, allowed) => RekeyInGap(cfg, x, roles, id, m, allowed);
    case Saves(force) => SaveInGap(cfg, x.core, force);
    hide HandleDiff, CheckVersion, HandleSnapshot, HandleRekey, Save, GapInv, RowIsLive;
  }

  lemma {:induction false} GapIsLiveIff<N>(cfg: Config<N>, x: Vault<N>, es: seq<Event<N>>)
    requires cfg.saveInterval > 0 && AnyRun(es) && InGap(es) && GapInv(cfg, x.core)
    ensures var c := AfterAny(cfg, x, es).core;
      GapInv(cfg, c) && (RowIsLive(c) <==> !LeavesUnsaved(cfg, x, es, !RowIsLive(x.core)))
    decreases |es|
  {
    if es != [] {
      hide Happens, GapInv, RowIsLive, Waits, Sane;
      EventInGap(cfg, x, es[0]);
      GapIsLiveIff(cfg, Happens(cfg, x, es[0]), es[1..]);
    }
  }

  lemma ResumeIsTrustworthyIff<N>(cfg: Config<N>, core: Core<N>)
    requires GapInv(cfg, core)
    ensures SaveInv(cfg, SaveResume(core)) <==> RowIsLive(core)
  {
  }

  /** Whatever diffs, checks, joins, snapshots, re-keys and other saves are handled while a save waits for the database,
      the flags are trustworthy after it exactly when they leave nothing waiting. */
  lemma SaveGapIff<N>(cfg: Config<N>, x: Vault<N>, es: seq<Event<N>>)
    requires cfg.saveInterval > 0 && AnyRun(es) && InGap(es) && SaveInv(cfg, x.core)
    ensures var written := x.(core := SaveWrite(cfg, x.core));
      SaveInv(cfg, SaveResume(AfterAny(cfg, written, es).core)) <==> !LeavesUnsaved(cfg, written, es, false)
  {
    var written := x.(core := SaveWrite(cfg, x.core));
    WriteMakesRowLive(cfg, x.core);
    assert GapInv(cfg, written.core);
    hide SaveWrite, AfterAny, LeavesUnsaved, GapInv, RowIsLive, SaveInv, Sound;
    GapIsLiveIff(cfg, written, es);
    ResumeIsTrustworthyIff(cfg, AfterAny(cfg, written, es).core);
  }

  /** What the gap costs: with one accepted diff in it, the save made when the last participant leaves is skipped, and
      the row stays a version behind the document that is then forgotten. */
  lemma SaveGapLosesTheDiff<N>(cfg: Config<N>, core: Core<N>, order: seq<nat>, roles: map<nat, Role>, id: nat, d: Diff)
    requires id in roles && cfg.saveInterval > 1
    requires SaveInv(cfg, core) && Accepts(cfg, SaveWrite(cfg, core), roles[id], d)
    requires (core.doc.version + 1) % cfg.saveInterval != 0
    ensures var waiting := HandleDiff(cfg, SaveWrite(cfg, core), order, roles, id, d).core;
      var last := Save(cfg, SaveResume(waiting), false);
      last.doc.version == core.doc.version + 1 && last.row.version == core.doc.version
  {
    WriteMakesRowLive(cfg, core);
    var w := SaveWrite(cfg, core);
    hide SaveWrite;
    VersionCountsAccepted(cfg, w, order, roles, id, d);
    if !w.doc.e2ee {
      var logged := Log(StepsOf(cfg, w, d).value, d);
      SidecarsLeaveTheRest(logged, d, roles[id]);
      hide ApplySidecars, FilterUpdates, Discarded, ApplySteps, Last;
    }
  }
}
