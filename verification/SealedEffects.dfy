/** Who may re-key or send a snapshot, and what is stored then, column by column. */
module SealedEffects {
  import opened Prelude
  import opened Access
  import opened Comments
  import opened Documents
  import opened Session
  import opened Replay
  import opened Saving
  import opened Epoch
  import opened Recipients

  // ---- Re-keying

  ghost predicate HasEntry(es: seq<Envelope>, holder: int) {
    exists i :: 0 <= i < |es| && es[i].holder == Some(holder)
  }

  ghost predicate Usable(entry: Envelope, allowed: set<int>) {
    && entry.holder.Some? && entry.holder.value in allowed
    && entry.key.Some? && entry.key.value != "" && entry.withMaster != NotBool
  }

  /** The owner of an encrypted document, with encryption on, sends ciphertext of the current version under a salt of at
      least sixteen bytes and a hundred thousand iterations, and a usable envelope for each present holder and for
      nobody without access. */
  ghost predicate MayRekey<N>(cfg: Config<N>, x: Vault<N>, role: Role, m: Rekey, allowed: set<int>) {
    && x.core.doc.e2ee && cfg.e2eeEnabled && role.isOwner
    && m.salt.Some? && |m.salt.value| >= 16 && m.iterations.Value? && m.iterations.n >= 100000
    && m.content.Some? && m.comments.Some? && m.bibliography.Some? && m.title != Some(None)
    && m.v == Some(x.core.doc.version)
    && m.keys.Some?
    && (forall i :: 0 <= i < |m.keys.value| ==> Usable(m.keys.value[i], allowed))
    && (forall h :: h in x.keys ==> HasEntry(m.keys.value, h))
  }

  ghost predicate NoFlagMissing(es: seq<Envelope>) {
    forall i :: 0 <= i < |es| ==> es[i].withMaster != NoFlag
  }

  /** The columns a re-key replaces, and no others. */
  ghost predicate HasRekeyed<N>(was: Doc<N>, now: Doc<N>, m: Rekey) {
    && now.salt == m.salt && m.iterations == Value(now.iterations) && now.diffs == [] && now.snapshotVersion == m.v
    && now.content.Cipher? && m.content == Some(now.content.text)
    && now.comments.Cipher? && m.comments == Some(now.comments.text)
    && now.bibliography.Cipher? && m.bibliography == Some(now.bibliography.text)
    && (if m.title.Some? then m.title == Some(Some(now.title)) else now.title == was.title)
    && now.e2ee == was.e2ee && now.version == was.version
  }

  /** The holder's row is that of the last entry naming it, under the new salt. */
  ghost predicate HasKey(es: seq<Envelope>, salt: Bytes, h: int, row: KeyRow) {
    exists i ::
      && 0 <= i < |es| && es[i].holder == Some(h)
      && es[i].key == Some(row.key) && es[i].withMaster == IsBool(row.withMaster) && row.epoch == salt
      && forall j :: i < j < |es| ==> es[j].holder != Some(h)
  }

  ghost predicate KeysWritten(was: map<int, KeyRow>, es: seq<Envelope>, salt: Bytes, now: map<int, KeyRow>) {
    && (forall h :: h in now <==> h in was || HasEntry(es, h))
    && (forall h :: h in now ==> if HasEntry(es, h) then HasKey(es, salt, h, now[h]) else now[h] == was[h])
  }

  lemma HoldersHaveEntries(es: seq<Envelope>, h: int)
    ensures h in Holders(es) <==> HasEntry(es, h)
  {
  }

  lemma EntryFurther(es: seq<Envelope>, h: int, salt: Bytes, row: KeyRow)
    requires es != []
    ensures HasEntry(es, h) <==> es[0].holder == Some(h) || HasEntry(es[1..], h)
    ensures HasKey(es[1..], salt, h, row) ==> HasKey(es, salt, h, row)
    ensures (es[0].holder == Some(h) && !HasEntry(es[1..], h) && es[0].key == Some(row.key)
             && es[0].withMaster == IsBool(row.withMaster) && row.epoch == salt) ==> HasKey(es, salt, h, row)
  {
    assert forall j :: 1 <= j < |es| ==> es[j] == es[1..][j - 1];
    if HasEntry(es[1..], h) {
      var i :| 0 <= i < |es[1..]| && es[1..][i].holder == Some(h);
      assert es[i + 1].holder == Some(h);
    }
    if HasKey(es[1..], salt, h, row) {
      var i :| 0 <= i < |es[1..]| && es[1..][i].holder == Some(h) && es[1..][i].key == Some(row.key)
        && es[1..][i].withMaster == IsBool(row.withMaster)
        && forall j :: i < j < |es[1..]| ==> es[1..][j].holder != Some(h);
      assert es[i + 1].holder == Some(h);
    }
    if !HasEntry(es[1..], h) {
      assert forall j :: 0 < j < |es| ==> es[j].holder != Some(h);
    }
  }

  lemma {:induction false} KeyIsWritten(was: map<int, KeyRow>, es: seq<Envelope>, salt: Bytes, h: int)
    requires Complete(es) && forall i :: 0 <= i < |es| ==> EnvelopeOk(es[i])
    ensures var now := WriteKeys(was, es, salt);
      && (h in now <==> h in was || HasEntry(es, h))
      && (h in now ==> if HasEntry(es, h) then HasKey(es, salt, h, now[h]) else now[h] == was[h])
    decreases |es|
  {
    if es != [] {
      assert EnvelopeOk(es[0]);
      var first := KeyRow(es[0].key.value, es[0].withMaster.b, salt);
      var next := was[es[0].holder.value := first];
      KeyIsWritten(next, es[1..], salt, h);
      var now := WriteKeys(was, es, salt);
      EntryFurther(es, h, salt, if h in now then now[h] else first);
      hide HasEntry, HasKey;
    }
  }

  lemma KeysAreWritten(was: map<int, KeyRow>, es: seq<Envelope>, salt: Bytes)
    requires Complete(es) && forall i :: 0 <= i < |es| ==> EnvelopeOk(es[i])
    ensures KeysWritten(was, es, salt, WriteKeys(was, es, salt))
  {
    var now := WriteKeys(was, es, salt);
    hide WriteKeys, HasEntry, HasKey, EnvelopeOk, Complete;
    forall h ensures h in now <==> h in was || HasEntry(es, h) {
      KeyIsWritten(was, es, salt, h);
    }
    forall h | h in now ensures if HasEntry(es, h) then HasKey(es, salt, h, now[h]) else now[h] == was[h] {
      KeyIsWritten(was, es, salt, h);
    }
  }

  lemma UsableIff(es: seq<Envelope>, allowed: set<int>)
    ensures (forall i :: 0 <= i < |es| ==> EnvelopeOk(es[i])) && Holders(es) <= allowed
       <==> forall i :: 0 <= i < |es| ==> Usable(es[i], allowed)
  {
    if (forall i :: 0 <= i < |es| ==> EnvelopeOk(es[i])) && Holders(es) <= allowed {
      forall i | 0 <= i < |es| ensures Usable(es[i], allowed) {
        assert EnvelopeOk(es[i]) && es[i].holder.value in Holders(es);
      }
    }
    if forall i :: 0 <= i < |es| ==> Usable(es[i], allowed) {
      forall i | 0 <= i < |es| ensures EnvelopeOk(es[i]) {
        assert Usable(es[i], allowed);
      }
      forall h | h in Holders(es) ensures h in allowed {
        var i :| 0 <= i < |es| && es[i].holder == Some(h);
        assert Usable(es[i], allowed);
      }
    }
  }

  lemma PresentIff(keys: map<int, KeyRow>, es: seq<Envelope>)
    ensures keys.Keys <= Holders(es) <==> forall h :: h in keys ==> HasEntry(es, h)
  {
    forall h ensures h in Holders(es) <==> HasEntry(es, h) {
      HoldersHaveEntries(es, h);
    }
    hide Holders, HasEntry;
    if forall h :: h in keys ==> HasEntry(es, h) {
      forall h | h in keys.Keys ensures h in Holders(es) {
        assert h in keys;
      }
    }
    if keys.Keys <= Holders(es) {
      forall h | h in keys ensures HasEntry(es, h) {
        assert h in keys.Keys;
      }
    }
  }

  lemma ReachesIff<N>(cfg: Config<N>, x: Vault<N>, role: Role, m: Rekey, allowed: set<int>)
    ensures ReachesTransaction(cfg, x, role, m, allowed) <==> MayRekey(cfg, x, role, m, allowed)
  {
    if m.keys.Some? {
      UsableIff(m.keys.value, allowed);
      PresentIff(x.keys, m.keys.value);
    }
    hide HasEntry, Holders, Usable, EnvelopeOk;
  }

  /** A re-key from anyone else, or with anything missing, changes nothing and is not answered. Otherwise the live
      document takes it; if every entry has its flag, so do the row and the key rows, the sender is told and everyone
      else refetches, and if not, the rows stay as they were and nobody hears of it. */
  lemma RekeyIs<N>(cfg: Config<N>, x: Vault<N>, roles: map<nat, Role>, id: nat, m: Rekey, allowed: set<int>)
    requires id in roles
    ensures var f := HandleRekey(cfg, x, roles, id, m, allowed);
      var was, now := x.core, f.vault.core;
      && f.ok
      && (!MayRekey(cfg, x, roles[id], m, allowed) ==> f.vault == x && Silent(roles, f.mail))
      && (MayRekey(cfg, x, roles[id], m, allowed) ==>
            && HasRekeyed(was.doc, now.doc, m)
            && now == was.(doc := now.doc, row := now.row)
            && if NoFlagMissing(m.keys.value) then
                 && now.row == now.doc && KeysWritten(x.keys, m.keys.value, m.salt.value, f.vault.keys)
                 && f.mail.Keys == roles.Keys
                 && f.mail[id] == [RekeyDone(was.doc.version, m.salt.value, m.iterations.n)]
                 && forall k :: k in roles && k != id ==> f.mail[k] == [Refetch]
               else now.row == was.row && f.vault.keys == x.keys && Silent(roles, f.mail))
  {
    ReachesIff(cfg, x, roles[id], m, allowed);
    if MayRekey(cfg, x, roles[id], m, allowed) {
      assert RekeyOk(x.core.doc, m);
      FlagsAreComplete(m.keys.value, allowed);
      if Complete(m.keys.value) {
        KeysAreWritten(x.keys, m.keys.value, m.salt.value);
      }
    }
    hide KeysWritten, WriteKeys, Complete, NoFlagMissing, Usable, HasEntry, EnvelopeOk, ReachesTransaction, Holders;
  }

  lemma FlagsAreComplete(es: seq<Envelope>, allowed: set<int>)
    requires forall i :: 0 <= i < |es| ==> Usable(es[i], allowed)
    ensures Complete(es) <==> NoFlagMissing(es)
  {
    if NoFlagMissing(es) {
      forall i | 0 <= i < |es| ensures es[i].withMaster.IsBool? {
        assert Usable(es[i], allowed);
      }
    }
  }

  // ---- Snapshots

  /** A ciphertext, or, only before the first snapshot of a document that has not been edited, a readable tree. */
  ghost predicate Storable<N, T>(doc: Doc<N>, field: Sent<T>) {
    || field.Text?
    || (field.Tree? && doc.version == 0 && doc.snapshotVersion.None? && doc.content.Plain?)
  }

  ghost predicate MaySnapshot<N>(cfg: Config<N>, doc: Doc<N>, role: Role, m: Snapshot<N>) {
    && doc.e2ee && cfg.e2eeEnabled && role.rights == Write
    && doc.salt.Some? && m.salt == doc.salt && |doc.salt.value| >= 16
    && (doc.iterations == 0 || doc.iterations >= 100000)
    && (m.iterations == Absent || m.iterations == Value(doc.iterations))
    && m.v == Some(doc.version)
    && m.content.Some? && Storable(doc, m.content.value)
    && (m.comments.Some? ==> Storable(doc, m.comments.value))
    && (m.bibliography.Some? ==> Storable(doc, m.bibliography.value))
    && (m.title.Some? ==> Storable(doc, m.title.value))
  }

  ghost predicate HoldsField<T>(column: Field<T>, field: Sent<T>) {
    match field
    case Text(text) => column == Cipher(text)
    case Tree(value) => column == Plain(value)
    case OtherJson => false
  }

  /** The columns a snapshot replaces, and no others: what it does not bring of comments and bibliography is emptied, a
      title it does not bring stays. */
  ghost predicate HasSnapshot<N>(was: Doc<N>, now: Doc<N>, m: Snapshot<N>) {
    && m.content.Some? && HoldsField(now.content, m.content.value)
    && (if m.comments.Some? then HoldsField(now.comments, m.comments.value) else now.comments == Plain(map[]))
    && (if m.bibliography.Some? then HoldsField(now.bibliography, m.bibliography.value)
        else now.bibliography == Plain(map[]))
    && (match m.title
        case None => now.title == was.title
        case Some(Text(text)) => now.title == text
        case Some(Tree(printed)) => now.title == printed
        case Some(OtherJson) => false)
    && now.snapshotVersion == m.v
    && now.e2ee == was.e2ee && now.version == was.version && now.diffs == was.diffs
    && now.salt == was.salt && now.iterations == was.iterations
  }

  /** The row holds every column of an encrypted document. */
  ghost predicate RowIsDocument<N>(core: Core<N>) {
    && core.row.e2ee && core.row.version == core.doc.version && core.row.title == core.doc.title
    && core.row.content == core.doc.content && core.row.diffs == core.doc.diffs
    && core.row.comments == core.doc.comments && core.row.bibliography == core.doc.bibliography
    && core.row.salt == core.doc.salt && core.row.iterations == core.doc.iterations
    && core.row.snapshotVersion == core.doc.snapshotVersion
  }

  lemma StoredIff<N>(cfg: Config<N>, doc: Doc<N>, role: Role, m: Snapshot<N>)
    ensures (role.rights == Write && MayWrite(cfg, doc) && doc.e2ee && cfg.e2eeEnabled && doc.salt.Some?
             && SnapshotOk(doc, m))
       <==> MaySnapshot(cfg, doc, role, m)
  {
  }

  lemma SnapshotIsStored<N>(doc: Doc<N>, m: Snapshot<N>)
    requires doc.salt.Some? && SnapshotOk(doc, m)
    ensures HasSnapshot(doc, StoreSnapshot(doc, m), m)
  {
    hide ValidParams;
  }

  lemma ForcedSaveIs<N>(cfg: Config<N>, core: Core<N>)
    requires core.doc.e2ee
    ensures var c := Save(cfg, core, true);
      && RowIsDocument(c) && c.lastSaved == core.doc.version
      && c == core.(row := c.row, lastSaved := c.lastSaved)
  {
  }

  /** A snapshot from anyone else, or with anything missing or out of date, changes nothing and is not answered; for a
      document without a salt the handler raises if the parameters are sound otherwise. One that is taken is in the live
      document and in the row, and everyone else is told of its version. */
  lemma SnapshotIs<N>(cfg: Config<N>, core: Core<N>, roles: map<nat, Role>, id: nat, m: Snapshot<N>)
    requires id in roles
    ensures var f := HandleSnapshot(cfg, core, roles, id, m);
      && (!f.ok <==> core.doc.salt.None? && core.doc.e2ee && cfg.e2eeEnabled && roles[id].rights == Write
                     && m.salt.Some? && |m.salt.value| >= 16
                     && (core.doc.iterations == 0 || core.doc.iterations >= 100000))
      && (!MaySnapshot(cfg, core.doc, roles[id], m) ==> f.core == core && Silent(roles, f.mail))
      && (MaySnapshot(cfg, core.doc, roles[id], m) ==>
            && HasSnapshot(core.doc, f.core.doc, m) && RowIsDocument(f.core) && f.core.lastSaved == core.doc.version
            && f.core == core.(doc := f.core.doc, row := f.core.row, lastSaved := f.core.lastSaved)
            && f.mail.Keys == roles.Keys && f.mail[id] == []
            && forall k :: k in roles && k != id ==> f.mail[k] == [SnapshotReceived(core.doc.version)])
  {
    StoredIff(cfg, core.doc, roles[id], m);
    if MaySnapshot(cfg, core.doc, roles[id], m) {
      SnapshotIsStored(core.doc, m);
      ForcedSaveIs(cfg, core.(doc := StoreSnapshot(core.doc, m)));
    }
    hide Save, StoreSnapshot, SnapshotOk, ValidParams, HasSnapshot, RowIsDocument, MaySnapshot;
  }
}
