/** Encrypted documents: snapshots, re-keying, and what stays true of the key epoch. */
module Epoch {
  import opened Prelude
  import opened Access
  import opened Comments
  import opened Documents
  import opened Session
  import opened Replay
  import opened Saving

  const MIN_ITERATIONS := 100_000
  const MIN_SALT_BYTES := 16

  /** A JSON value in a state field: a string, a readable tree, or anything else. */
  datatype Sent<T> = Text(text: string) | Tree(value: T) | OtherJson

  /** A numeric field: missing, not a number, or a number. */
  datatype Number = Absent | Malformed | Value(n: int)

  /** `salt` is the decoded salt; `v` is the version when it is an integer. */
  datatype Snapshot<N> = Snapshot(v: Option<int>, salt: Option<Bytes>, iterations: Number, content: Option<Sent<N>>,
                                  comments: Option<Sent<CommentMap>>, bibliography: Option<Sent<Bibliography>>,
                                  title: Option<Sent<string>>)

  datatype Flag = NoFlag | NotBool | IsBool(b: bool)

  /** An entry of `keys`; a holder that is not an integer or an envelope that is not a string is `None`. */
  datatype Envelope = Envelope(holder: Option<int>, key: Option<string>, withMaster: Flag)

  datatype Rekey = Rekey(v: Option<int>, salt: Option<Bytes>, iterations: Number, content: Option<string>,
                         comments: Option<string>, bibliography: Option<string>, title: Option<Option<string>>,
                         keys: Option<seq<Envelope>>)

  /** A stored envelope; `epoch` is the salt of the re-key it came from. */
  datatype KeyRow = KeyRow(key: string, withMaster: bool, epoch: Bytes)

  /** A session with the key rows of its document. */
  datatype Vault<N> = Vault(core: Core<N>, keys: map<int, KeyRow>)

  datatype VaultEffect<N> = VaultEffect(vault: Vault<N>, mail: map<nat, seq<Msg>>, ok: bool)

  /** `validate_e2ee_params`. */
  predicate ValidParams(salt: Option<Bytes>, iterations: Number) {
    iterations.Value? && iterations.n >= MIN_ITERATIONS && salt.Some? && |salt.value| >= MIN_SALT_BYTES
  }

  function ToOthers(roles: map<nat, Role>, id: nat, msgs: seq<Msg>): map<nat, seq<Msg>> {
    map k | k in roles :: if k == id then [] else msgs
  }

  // ---- Snapshots

  predicate FieldOk<T>(f: Sent<T>, initial: bool) {
    f.Text? || (f.Tree? && initial)
  }

  function Stored<T>(f: Sent<T>, none: T): Field<T> {
    match f
    case Text(text) => Cipher(text)
    case Tree(value) => Plain(value)
    case OtherJson => Plain(none)
  }

  predicate IsInitial<N>(doc: Doc<N>) {
    doc.version == 0 && doc.snapshotVersion.None? && doc.content.Plain?
  }

  predicate SnapshotOk<N>(doc: Doc<N>, m: Snapshot<N>)
    requires doc.salt.Some?
  {
    && ValidParams(m.salt, Value(if doc.iterations != 0 then doc.iterations else MIN_ITERATIONS))
    && m.salt == doc.salt
    && (m.iterations.Absent? || m.iterations == Value(doc.iterations))
    && m.v == Some(doc.version)
    && m.content.Some? && FieldOk(m.content.value, IsInitial(doc))
    && (m.comments.Some? ==> FieldOk(m.comments.value, IsInitial(doc)))
    && (m.bibliography.Some? ==> FieldOk(m.bibliography.value, IsInitial(doc)))
    && (m.title.Some? ==> FieldOk(m.title.value, IsInitial(doc)))
  }

  function StoreSnapshot<N>(doc: Doc<N>, m: Snapshot<N>): Doc<N>
    requires m.content.Some? && !m.content.value.OtherJson?
  {
    var d := doc.(
      content := match m.content.value case Text(text) => Cipher(text) case Tree(value) => Plain(value),
      comments := if m.comments.Some? then Stored(m.comments.value, map[]) else Plain(map[]),
      bibliography := if m.bibliography.Some? then Stored(m.bibliography.value, map[]) else Plain(map[]),
      snapshotVersion := m.v);
    match m.title
    case Some(Text(text)) => d.(title := text)
    case Some(Tree(printed)) => d.(title := printed)
    case _ => d
  }

  /** `handle_e2ee_snapshot`. A refused snapshot has no effect: `reject_message` answers diffs only. */
  function HandleSnapshot<N>(cfg: Config<N>, core: Core<N>, roles: map<nat, Role>, id: nat, m: Snapshot<N>): Effect<N>
    requires id in roles
  {
    if roles[id].rights != Write || !MayWrite(cfg, core.doc) || !core.doc.e2ee || !cfg.e2eeEnabled
    then Effect(core, Nothing(roles), true)
    else if core.doc.salt.None? then
      Effect(core, Nothing(roles),
             !ValidParams(m.salt, Value(if core.doc.iterations != 0 then core.doc.iterations else MIN_ITERATIONS)))
    else if !SnapshotOk(core.doc, m) then Effect(core, Nothing(roles), true)
    else Effect(Save(cfg, core.(doc := StoreSnapshot(core.doc, m)), true),
                ToOthers(roles, id, [SnapshotReceived(core.doc.version)]), true)
  }

  // ---- Re-keying

  predicate EnvelopeOk(e: Envelope) {
    e.holder.Some? && e.key.Some? && e.key.value != "" && !e.withMaster.NotBool?
  }

  predicate RekeyOk<N>(doc: Doc<N>, m: Rekey) {
    && ValidParams(m.salt, m.iterations)
    && m.content.Some? && m.comments.Some? && m.bibliography.Some?
    && (m.title.Some? ==> m.title.value.Some?)
    && m.v == Some(doc.version)
    && m.keys.Some? && forall i :: 0 <= i < |m.keys.value| ==> EnvelopeOk(m.keys.value[i])
  }

  function Holders(es: seq<Envelope>): set<int> {
    set i | 0 <= i < |es| && es[i].holder.Some? :: es[i].holder.value
  }

  /** Every entry carries the flag that the write reads without a default. */
  predicate Complete(es: seq<Envelope>) {
    forall i :: 0 <= i < |es| ==> es[i].withMaster.IsBool?
  }

  function WriteKeys(rows: map<int, KeyRow>, es: seq<Envelope>, salt: Bytes): map<int, KeyRow>
    requires Complete(es) && forall i :: 0 <= i < |es| ==> EnvelopeOk(es[i])
    decreases |es|
  {
    if es == [] then rows
    else
      assert EnvelopeOk(es[0]);
      WriteKeys(rows[es[0].holder.value := KeyRow(es[0].key.value, es[0].withMaster.b, salt)], es[1..], salt)
  }

  function RekeyDoc<N>(doc: Doc<N>, m: Rekey): Doc<N>
    requires RekeyOk(doc, m)
  {
    var d := doc.(salt := m.salt, iterations := m.iterations.n, content := Cipher(m.content.value),
                  comments := Cipher(m.comments.value), bibliography := Cipher(m.bibliography.value), diffs := [],
                  snapshotVersion := m.v);
    if m.title.Some? then d.(title := m.title.value.value) else d
  }

  /** Whether a re-key gets as far as the transaction. */
  predicate ReachesTransaction<N>(cfg: Config<N>, x: Vault<N>, role: Role, m: Rekey, allowed: set<int>) {
    && x.core.doc.e2ee && cfg.e2eeEnabled && role.isOwner
    && RekeyOk(x.core.doc, m)
    && x.keys.Keys <= Holders(m.keys.value) <= allowed
  }

  function RekeyNotices(roles: map<nat, Role>, id: nat, done: Msg): map<nat, seq<Msg>> {
    map k | k in roles :: if k == id then [done] else [Refetch]
  }

  /** The row and the key rows are written in a transaction, the document in memory is not: an entry without the flag
      raises, which undoes the rows only. */
  function Rekeyed<N>(x: Vault<N>, m: Rekey): Vault<N>
    requires RekeyOk(x.core.doc, m)
  {
    var doc := RekeyDoc(x.core.doc, m);
    if Complete(m.keys.value)
    then Vault(x.core.(doc := doc, row := doc), WriteKeys(x.keys, m.keys.value, m.salt.value))
    else x.(core := x.core.(doc := doc))
  }

  function RekeyMail(roles: map<nat, Role>, id: nat, v: int, m: Rekey): map<nat, seq<Msg>>
    requires m.salt.Some? && m.iterations.Value? && m.keys.Some?
  {
    if Complete(m.keys.value) then RekeyNotices(roles, id, RekeyDone(v, m.salt.value, m.iterations.n))
    else Nothing(roles)
  }

  /** `handle_e2ee_rekey`; `allowed` are the holders of an access right and the owner. */
  function HandleRekey<N>(cfg: Config<N>, x: Vault<N>, roles: map<nat, Role>, id: nat, m: Rekey, allowed: set<int>)
    : VaultEffect<N>
    requires id in roles
  {
    if !ReachesTransaction(cfg, x, roles[id], m, allowed) then VaultEffect(x, Nothing(roles), true)
    else VaultEffect(Rekeyed(x, m), RekeyMail(roles, id, x.core.doc.version, m), true)
  }

  // ---- The epoch invariant

  ghost predicate DocInEpoch<N>(doc: Doc<N>) {
    && doc.e2ee && doc.salt.Some?
    && (forall i :: 0 <= i < |doc.diffs| ==> doc.diffs[i].salt == doc.salt)
    && (doc.snapshotVersion.Some? ==> doc.snapshotVersion.value <= doc.version)
  }

  ghost predicate InEpoch<N>(x: Vault<N>) {
    && DocInEpoch(x.core.doc) && DocInEpoch(x.core.row)
    && x.core.row.salt == x.core.doc.salt
    && forall h :: h in x.keys ==> x.keys[h].epoch == x.core.doc.salt.value
  }

  lemma SaveKeepsEpoch<N>(cfg: Config<N>, core: Core<N>, keys: map<int, KeyRow>, force: bool)
    requires DocInEpoch(core.doc) && DocInEpoch(core.row) && core.row.salt == core.doc.salt
    ensures var c := Save(cfg, core, force);
      c.doc == core.doc && DocInEpoch(c.row) && c.row.salt == c.doc.salt
  {
  }

  lemma DiffKeepsEpoch<N>(cfg: Config<N>, x: Vault<N>, order: seq<nat>, roles: map<nat, Role>, id: nat, d: Diff)
    requires id in roles && cfg.saveInterval > 0 && InEpoch(x)
    ensures InEpoch(x.(core := HandleDiff(cfg, x.core, order, roles, id, d).core))
  {
    hide AcceptPlain, FirstWriter, Discarded, Missing, Save;
    SaveKeepsEpoch(cfg, x.core, x.keys, false);
    if SaltMatches(x.core, d) {
      var log := Last(x.core.doc.diffs + [d], HISTORY_LENGTH);
      assert forall i :: 0 <= i < |log| ==> log[i].salt == x.core.doc.salt;
    }
  }

  lemma CheckKeepsEpoch<N>(cfg: Config<N>, x: Vault<N>, roles: map<nat, Role>, id: nat, v: Option<int>, offline: bool)
    requires id in roles && InEpoch(x)
    ensures InEpoch(x.(core := CheckVersion(cfg, x.core, roles, id, v, offline).core))
  {
    hide Missing, Save;
    SaveKeepsEpoch(cfg, x.core, x.keys, false);
  }

  lemma SnapshotKeepsEpoch<N>(cfg: Config<N>, x: Vault<N>, roles: map<nat, Role>, id: nat, m: Snapshot<N>)
    requires id in roles && InEpoch(x)
    ensures InEpoch(x.(core := HandleSnapshot(cfg, x.core, roles, id, m).core))
  {
    hide Save;
    if SnapshotOk(x.core.doc, m) {
      SaveKeepsEpoch(cfg, x.core.(doc := StoreSnapshot(x.core.doc, m)), x.keys, true);
    }
  }

  ghost predicate Written(row: KeyRow, h: int, e: Envelope) {
    e.holder == Some(h) && Some(row.key) == e.key && IsBool(row.withMaster) == e.withMaster
  }

  ghost predicate FromSome(row: KeyRow, h: int, es: seq<Envelope>) {
    exists i :: 0 <= i < |es| && Written(row, h, es[i])
  }

  /** The rows written by a complete re-key: one for every holder named, all of this epoch, none of the old left. */
  lemma {:induction false} WrittenKeys(rows: map<int, KeyRow>, es: seq<Envelope>, salt: Bytes)
    requires Complete(es) && forall i :: 0 <= i < |es| ==> EnvelopeOk(es[i])
    ensures var w := WriteKeys(rows, es, salt);
      && w.Keys == rows.Keys + Holders(es)
      && (forall h :: h in w && h in Holders(es) ==> w[h].epoch == salt)
      && (forall h :: h in w && h !in Holders(es) ==> h in rows && w[h] == rows[h])
      && (forall h :: h in Holders(es) ==> h in w && FromSome(w[h], h, es))
    decreases |es|
  {
    if es != [] {
      var rows' := rows[es[0].holder.value := KeyRow(es[0].key.value, es[0].withMaster.b, salt)];
      WrittenKeys(rows', es[1..], salt);
      HoldersCons(es);
      var w := WriteKeys(rows, es, salt);
      forall h | h in Holders(es) ensures h in w && FromSome(w[h], h, es) {
        if h in Holders(es[1..]) {
          var i :| 0 <= i < |es[1..]| && Written(w[h], h, es[1..][i]);
          assert es[i + 1] == es[1..][i];
        } else {
          assert Written(w[h], h, es[0]);
        }
      }
    }
  }

  lemma HoldersCons(es: seq<Envelope>)
    requires es != [] && es[0].holder.Some?
    ensures Holders(es) == {es[0].holder.value} + Holders(es[1..])
  {
    forall h | h in Holders(es) ensures h == es[0].holder.value || h in Holders(es[1..]) {
      var i :| 0 <= i < |es| && es[i].holder == Some(h);
      if i > 0 {
        assert es[1..][i - 1] == es[i];
      }
    }
    forall h | h in Holders(es[1..]) ensures h in Holders(es) {
      var i :| 0 <= i < |es[1..]| && es[1..][i].holder == Some(h);
      assert es[i + 1] == es[1..][i];
    }
  }

  /** After a complete re-key the log is empty, the row is the document, no earlier holder is lost, and every key row
      is one of this re-key's. */
  lemma CompleteRekey<N>(cfg: Config<N>, x: Vault<N>, roles: map<nat, Role>, id: nat, m: Rekey, allowed: set<int>)
    requires id in roles && ReachesTransaction(cfg, x, roles[id], m, allowed) && Complete(m.keys.value)
    ensures var y := HandleRekey(cfg, x, roles, id, m, allowed).vault;
      && InEpoch(y)
      && y.core.doc.diffs == [] && y.core.doc.salt == m.salt && y.core.row == y.core.doc
      && y.core.doc.snapshotVersion == Some(x.core.doc.version) && y.core.doc.version == x.core.doc.version
      && x.keys.Keys <= y.keys.Keys == Holders(m.keys.value)
      && forall h :: h in y.keys ==> FromSome(y.keys[h], h, m.keys.value)
  {
    WrittenKeys(x.keys, m.keys.value, m.salt.value);
  }

  /** A re-key that reaches the transaction keeps the epoch exactly when every entry carries the flag, or the salt does
      not change. Validation does not ask for the flag. */
  lemma RekeyKeepsEpochIff<N>(cfg: Config<N>, x: Vault<N>, roles: map<nat, Role>, id: nat, m: Rekey, allowed: set<int>)
    requires id in roles && ReachesTransaction(cfg, x, roles[id], m, allowed) && InEpoch(x)
    ensures InEpoch(HandleRekey(cfg, x, roles, id, m, allowed).vault)
       <==> Complete(m.keys.value) || m.salt == x.core.doc.salt
  {
    if Complete(m.keys.value) {
      CompleteRekey(cfg, x, roles, id, m, allowed);
    }
  }

  /** What an incomplete re-key leads to: the next snapshot stores the new salt in the row while every envelope is
      still of the old epoch, so no holder's envelope fits the stored document. */
  lemma IncompleteRekeyStrandsHolders<N>(cfg: Config<N>, x: Vault<N>, roles: map<nat, Role>, id: nat, m: Rekey,
                                         allowed: set<int>, s: Snapshot<N>)
    requires id in roles && roles[id].rights == Write
    requires ReachesTransaction(cfg, x, roles[id], m, allowed) && InEpoch(x)
    requires !Complete(m.keys.value) && m.salt != x.core.doc.salt
    requires SnapshotOk(RekeyDoc(x.core.doc, m), s)
    ensures var y := HandleRekey(cfg, x, roles, id, m, allowed).vault;
      var z := y.(core := HandleSnapshot(cfg, y.core, roles, id, s).core);
      && y.core.row == x.core.row && y.keys == x.keys
      && z.core.row.salt == m.salt
      && forall h :: h in z.keys ==> Some(z.keys[h].epoch) != z.core.row.salt
  {
  }

  /** Every diff sent to catch a client up carries the document's salt. */
  lemma CatchUpCarriesSalt<N>(cfg: Config<N>, core: Core<N>, roles: map<nat, Role>, id: nat, v: Option<int>,
                              offline: bool)
    requires id in roles && DocInEpoch(core.doc)
    ensures var mail := CheckVersion(cfg, core, roles, id, v, offline).mail[id];
      forall i :: 0 <= i < |mail| && mail[i].DiffMsg? ==> mail[i].d.salt == core.doc.salt
  {
    hide Save, FilterUpdates;
  }

  lemma OpenIsInEpoch<N>(x: Vault<N>)
    requires InEpoch(x)
    ensures InEpoch(x.(core := Open(x.core.row, x.core.images)))
  {
  }

  // ---- Whole runs

  datatype Event<N> =
    | Diffs(order: seq<nat>, roles: map<nat, Role>, id: nat, d: Diff)
    | Checks(roles: map<nat, Role>, id: nat, v: Option<int>, offline: bool)
    | Snapshots(roles: map<nat, Role>, id: nat, m: Snapshot<N>)
    | Rekeys(roles: map<nat, Role>, id: nat, r: Rekey, allowed: set<int>)
    | Saves(force: bool)
    | Reopens

  ghost predicate Sane<N>(e: Event<N>) {
    match e
    case Diffs(_, roles, id, _) => id in roles
    case Checks(roles, id, _, _) => id in roles
    case Snapshots(roles, id, _) => id in roles
    case Rekeys(roles, id, _, _) => id in roles
    case _ => true
  }

  ghost function Happens<N>(cfg: Config<N>, x: Vault<N>, e: Event<N>): Vault<N>
    requires cfg.saveInterval > 0 && Sane(e)
  {
    match e
    case Diffs(order, roles, id, d) => x.(core := HandleDiff(cfg, x.core, order, roles, id, d).core)
    case Checks(roles, id, v, offline) => x.(core := CheckVersion(cfg, x.core, roles, id, v, offline).core)
    case Snapshots(roles, id, m) => x.(core := HandleSnapshot(cfg, x.core, roles, id, m).core)
    case Rekeys(roles, id, r, allowed) => HandleRekey(cfg, x, roles, id, r, allowed).vault
    case Saves(force) => x.(core := Save(cfg, x.core, force))
    case Reopens => x.(core := Open(Save(cfg, x.core, false).row, x.core.images))
  }

  /** The guard of the failing branch: a re-key that will be carried out names the flag in every entry. */
  ghost predicate WellSealed<N>(cfg: Config<N>, x: Vault<N>, e: Event<N>)
    requires Sane(e)
  {
    e.Rekeys? && ReachesTransaction(cfg, x, e.roles[e.id], e.r, e.allowed) ==> Complete(e.r.keys.value)
  }

  ghost predicate Run<N>(cfg: Config<N>, x: Vault<N>, es: seq<Event<N>>)
    requires cfg.saveInterval > 0
    decreases |es|
  {
    es == [] || (Sane(es[0]) && WellSealed(cfg, x, es[0]) && Run(cfg, Happens(cfg, x, es[0]), es[1..]))
  }

  ghost function After<N>(cfg: Config<N>, x: Vault<N>, es: seq<Event<N>>): Vault<N>
    requires cfg.saveInterval > 0 && Run(cfg, x, es)
    decreases |es|
  {
    if es == [] then x else After(cfg, Happens(cfg, x, es[0]), es[1..])
  }

  lemma EventKeepsEpoch<N>(cfg: Config<N>, x: Vault<N>, e: Event<N>)
    requires cfg.saveInterval > 0 && Sane(e) && WellSealed(cfg, x, e) && InEpoch(x)
    ensures InEpoch(Happens(cfg, x, e))
  {
    hide HandleDiff, CheckVersion, HandleSnapshot, Save, Open, ReachesTransaction;
    match e
    case Diffs(order, roles, id, d) => DiffKeepsEpoch(cfg, x, order, roles, id, d);
    case Checks(roles, id, v, offline) => CheckKeepsEpoch(cfg, x, roles, id, v, offline);
    case Snapshots(roles, id, m) => SnapshotKeepsEpoch(cfg, x, roles, id, m);
    case Rekeys(roles, id, r, allowed) =>
      if ReachesTransaction(cfg, x, roles[id], r, allowed) {
        RekeyKeepsEpochIff(cfg, x, roles, id, r, allowed);
      }
    case Saves(force) => SaveKeepsEpoch(cfg, x.core, x.keys, force);
    case Reopens =>
      SaveKeepsEpoch(cfg, x.core, x.keys, false);
      OpenIsInEpoch(x.(core := Save(cfg, x.core, false)));
      OpenIgnoresTheRest(Save(cfg, x.core, false), x.core.images);
  }

  lemma OpenIgnoresTheRest<N>(core: Core<N>, images: ImageRows)
    ensures Open(core.row, images).doc == core.row && Open(core.row, images).row == core.row
  {
  }

  /** While every re-key that is carried out is complete, the document, its row and every key row are of one epoch. */
  lemma {:induction false} EpochHoldsInCompleteRuns<N>(cfg: Config<N>, x: Vault<N>, es: seq<Event<N>>)
    requires cfg.saveInterval > 0 && Run(cfg, x, es) && InEpoch(x)
    ensures InEpoch(After(cfg, x, es))
    decreases |es|
  {
    if es != [] {
      hide Happens, InEpoch, WellSealed;
      EventKeepsEpoch(cfg, x, es[0]);
      EpochHoldsInCompleteRuns(cfg, Happens(cfg, x, es[0]), es[1..]);
    }
  }

  // ---- Once encrypted, always encrypted

  ghost predicate Sealed<N>(core: Core<N>) {
    core.doc.e2ee && core.row.e2ee && core.doc.content.Cipher? && core.row.content.Cipher?
  }

  lemma DiffKeepsSealed<N>(cfg: Config<N>, core: Core<N>, order: seq<nat>, roles: map<nat, Role>, id: nat, d: Diff)
    requires id in roles && cfg.saveInterval > 0 && Sealed(core)
    ensures Sealed(HandleDiff(cfg, core, order, roles, id, d).core)
  {
    hide AcceptPlain, FirstWriter, Discarded, Missing, Last;
  }

  lemma EventKeepsSealed<N>(cfg: Config<N>, x: Vault<N>, e: Event<N>)
    requires cfg.saveInterval > 0 && Sane(e) && Sealed(x.core)
    ensures Sealed(Happens(cfg, x, e).core)
  {
    hide HandleDiff, Missing, ReachesTransaction, ValidParams;
    match e
    case Diffs(order, roles, id, d) => DiffKeepsSealed(cfg, x.core, order, roles, id, d);
    case _ =>
  }

  ghost predicate AnyRun<N>(es: seq<Event<N>>) {
    forall i :: 0 <= i < |es| ==> Sane(es[i])
  }

  ghost function AfterAny<N>(cfg: Config<N>, x: Vault<N>, es: seq<Event<N>>): Vault<N>
    requires cfg.saveInterval > 0 && AnyRun(es)
    decreases |es|
  {
    if es == [] then x else AfterAny(cfg, Happens(cfg, x, es[0]), es[1..])
  }

  /** Once the content of an encrypted document is ciphertext it stays so, in memory and in the row, through diffs,
      snapshots, re-keys (complete or not), saves and re-opening. */
  lemma {:induction false} CiphertextStays<N>(cfg: Config<N>, x: Vault<N>, es: seq<Event<N>>)
    requires cfg.saveInterval > 0 && AnyRun(es) && Sealed(x.core)
    ensures Sealed(AfterAny(cfg, x, es).core)
    decreases |es|
  {
    if es != [] {
      hide Happens, Sealed, Sane;
      EventKeepsSealed(cfg, x, es[0]);
      CiphertextStays(cfg, Happens(cfg, x, es[0]), es[1..]);
    }
  }

  // ---- The log and the snapshot, through every run

  /** The entries of the log are those of the last versions, one each. */
  ghost predicate Consecutive<N>(doc: Doc<N>) {
    forall i :: 0 <= i < |doc.diffs| ==> doc.diffs[i].v == doc.version - |doc.diffs| + i
  }

  /** Salt, snapshot and log of a document fit together. */
  ghost predicate LogOk<N>(doc: Doc<N>) {
    DocInEpoch(doc) && Consecutive(doc)
  }

  ghost predicate LogsOk<N>(core: Core<N>) {
    LogOk(core.doc) && LogOk(core.row)
  }

  lemma SaveKeepsLogs<N>(cfg: Config<N>, core: Core<N>, force: bool)
    requires LogsOk(core)
    ensures LogsOk(Save(cfg, core, force)) && Save(cfg, core, force).doc == core.doc
  {
  }

  lemma LogKeepsLog<N>(core: Core<N>, d: Diff)
    requires LogOk(core.doc) && d.v == core.doc.version && d.salt == core.doc.salt
    ensures LogOk(Log(core, d).doc)
  {
    var all := core.doc.diffs + [d];
    var kept := Last(all, HISTORY_LENGTH);
    LastFromStart(all, HISTORY_LENGTH);
    hide Last;
    forall i | 0 <= i < |kept| ensures kept[i].v == core.doc.version + 1 - |kept| + i && kept[i].salt == core.doc.salt {
      assert kept[i] == all[|all| - |kept| + i];
    }
  }

  lemma DiffKeepsLogs<N>(cfg: Config<N>, core: Core<N>, order: seq<nat>, roles: map<nat, Role>, id: nat, d: Diff)
    requires id in roles && cfg.saveInterval > 0 && LogsOk(core)
    ensures LogsOk(HandleDiff(cfg, core, order, roles, id, d).core)
  {
    SaveKeepsLogs(cfg, core, false);
    if SaltMatches(core, d) && d.v == core.doc.version {
      LogKeepsLog(core, d);
    }
    hide AcceptPlain, FirstWriter, Discarded, Missing, Save, Log, LogOk;
    assert core.doc.e2ee by { LogOkUnfolds(core.doc); }
  }

  lemma LogOkUnfolds<N>(doc: Doc<N>)
    requires LogOk(doc)
    ensures doc.e2ee && doc.salt.Some?
  {
  }

  lemma EventKeepsLogs<N>(cfg: Config<N>, x: Vault<N>, e: Event<N>)
    requires cfg.saveInterval > 0 && Sane(e) && LogsOk(x.core)
    ensures LogsOk(Happens(cfg, x, e).core)
  {
    match e
    case Diffs(order, roles, id, d) =>
      DiffKeepsLogs(cfg, x.core, order, roles, id, d);
      hide HandleDiff, LogOk;
    case Checks(_, _, _, _) =>
      SaveKeepsLogs(cfg, x.core, false);
      hide Save, Missing, LogOk;
    case Snapshots(_, _, m) =>
      if x.core.doc.salt.Some? && SnapshotOk(x.core.doc, m) {
        SaveKeepsLogs(cfg, x.core.(doc := StoreSnapshot(x.core.doc, m)), true);
      }
      hide Save, ValidParams;
    case Rekeys(_, _, _, _) =>
      hide WriteKeys, ValidParams;
    case Saves(force) =>
      SaveKeepsLogs(cfg, x.core, force);
      hide Save, LogOk;
    case Reopens =>
      SaveKeepsLogs(cfg, x.core, false);
      OpenIgnoresTheRest(Save(cfg, x.core, false), x.core.images);
      hide Save, LogOk, Open;
  }

  /** In every run, re-keys that fail half way included: every logged diff carries the document's salt, in memory and in
      the row, the snapshot is not ahead of the version, and the log is that of the last versions without a gap. A
      re-key that changes the salt has emptied the log by then, committed or not. */
  lemma {:induction false} LogsHoldInEveryRun<N>(cfg: Config<N>, x: Vault<N>, es: seq<Event<N>>)
    requires cfg.saveInterval > 0 && AnyRun(es) && LogsOk(x.core)
    ensures LogsOk(AfterAny(cfg, x, es).core)
    decreases |es|
  {
    if es != [] {
      hide Happens, LogsOk, Sane;
      EventKeepsLogs(cfg, x, es[0]);
      LogsHoldInEveryRun(cfg, Happens(cfg, x, es[0]), es[1..]);
    }
  }

  ghost predicate ExactAnswer<N>(doc: Doc<N>, v: int, mail: seq<Msg>)
    requires v < doc.version
  {
    if v + |doc.diffs| >= doc.version then
      && |mail| == doc.version - v + 1 && mail[|mail| - 1] == ConfirmVersion(doc.version)
      && forall i :: 0 <= i < |mail| - 1 ==> mail[i].DiffMsg? && mail[i].d.v == v + i && mail[i].d.salt == doc.salt
    else mail == [Refetch]
  }

  lemma MissingIsExact<N>(doc: Doc<N>, behind: nat, role: Role, comments: CommentMap)
    requires LogOk(doc) && behind <= |doc.diffs|
    ensures var msgs := Missing(doc.diffs, behind, role, comments);
      |msgs| == behind && forall i :: 0 <= i < |msgs| ==>
        msgs[i].DiffMsg? && msgs[i].d.v == doc.version - behind + i && msgs[i].d.salt == doc.salt
  {
    LastFromStart(doc.diffs, behind);
    hide Last, FilterUpdates;
  }

  lemma CatchUpIsExact<N>(cfg: Config<N>, core: Core<N>, roles: map<nat, Role>, id: nat, v: int)
    requires LogOk(core.doc) && id in roles && v < core.doc.version
    ensures ExactAnswer(core.doc, v, CheckVersion(cfg, core, roles, id, Some(v), false).mail[id])
  {
    if v + |core.doc.diffs| >= core.doc.version {
      MissingIsExact(core.doc, core.doc.version - v, roles[id], PlainComments(core.doc.comments));
    }
    hide LogOk, Missing, Save;
  }

  /** Whatever has happened before, a client that asks is sent exactly the diffs of versions v to version-1, all of the
      current salt, and a confirmation, or only a refetch. */
  lemma CatchUpIsExactInEveryRun<N>(cfg: Config<N>, x: Vault<N>, es: seq<Event<N>>, roles: map<nat, Role>, id: nat,
                                    v: int)
    requires cfg.saveInterval > 0 && AnyRun(es) && LogsOk(x.core) && id in roles
    requires v < AfterAny(cfg, x, es).core.doc.version
    ensures var core := AfterAny(cfg, x, es).core;
      ExactAnswer(core.doc, v, CheckVersion(cfg, core, roles, id, Some(v), false).mail[id])
  {
    hide AfterAny, AnyRun, LogOk, CheckVersion, ExactAnswer;
    LogsHoldInEveryRun(cfg, x, es);
    CatchUpIsExact(cfg, AfterAny(cfg, x, es).core, roles, id, v);
  }

  // ---- The save flags, through snapshots and re-keys

  lemma SnapshotKeepsSaveInv<N>(cfg: Config<N>, core: Core<N>, roles: map<nat, Role>, id: nat, m: Snapshot<N>)
    requires id in roles && SaveInv(cfg, core)
    ensures SaveInv(cfg, HandleSnapshot(cfg, core, roles, id, m).core)
  {
    hide SnapshotOk, ValidParams;
  }

  /** A re-key writes the row itself; a complete one, and only a complete one or one that never gets that far,
      leaves the save flags trustworthy when the document was saved before. */
  lemma RekeyKeepsSaveInv<N>(cfg: Config<N>, x: Vault<N>, roles: map<nat, Role>, id: nat, m: Rekey, allowed: set<int>)
    requires id in roles && SaveInv(cfg, x.core)
    requires ReachesTransaction(cfg, x, roles[id], m, allowed) ==> Complete(m.keys.value)
    ensures SaveInv(cfg, HandleRekey(cfg, x, roles, id, m, allowed).vault.core)
  {
    hide WriteKeys;
  }

  lemma EventKeepsSaveInv<N>(cfg: Config<N>, x: Vault<N>, e: Event<N>)
    requires cfg.saveInterval > 0 && Sane(e) && WellSealed(cfg, x, e)
    requires SaveInv(cfg, x.core)
    ensures SaveInv(cfg, Happens(cfg, x, e).core)
  {
    hide HandleDiff, CheckVersion, HandleSnapshot, Save, HandleRekey, SaveInv, Open;
    match e
    case Diffs(order, roles, id, d) => SaveInvUnfold(cfg, x.core); DiffKeepsSound(cfg, x.core, order, roles, id, d);
    case Checks(roles, id, v, offline) =>
      SaveInvUnfold(cfg, x.core);
      CheckKeepsSound(cfg, x.core, roles, id, v, offline);
    case Snapshots(roles, id, m) => SnapshotKeepsSaveInv(cfg, x.core, roles, id, m);
    case Rekeys(roles, id, r, allowed) => RekeyKeepsSaveInv(cfg, x, roles, id, r, allowed);
    case Saves(force) => SaveRefinesWritingEverything(cfg, x.core, force);
    case Reopens =>
      SaveRefinesWritingEverything(cfg, x.core, false);
      LiveRowReopens(cfg, Save(cfg, x.core, false), x.core.images);
  }

  lemma SaveInvUnfold<N>(cfg: Config<N>, core: Core<N>)
    requires SaveInv(cfg, core)
    ensures Sound(cfg, core)
  {
  }

  lemma LiveRowReopens<N>(cfg: Config<N>, core: Core<N>, images: ImageRows)
    requires RowIsLive(core)
    ensures SaveInv(cfg, Open(core.row, images))
  {
  }

  /** In every run of atomic saves, whatever the participants do, the next save leaves the row live, and closing and
      opening the document again loses nothing. */
  lemma {:induction false} SavesRefineInEveryRun<N>(cfg: Config<N>, x: Vault<N>, es: seq<Event<N>>, force: bool)
    requires cfg.saveInterval > 0 && Run(cfg, x, es) && SaveInv(cfg, x.core)
    ensures RowIsLive(Save(cfg, After(cfg, x, es).core, force))
    decreases |es|
  {
    if es == [] {
      SaveRefinesWritingEverything(cfg, x.core, force);
    } else {
      hide Happens, SaveInv, WellSealed, RowIsLive, Save;
      EventKeepsSaveInv(cfg, x, es[0]);
      SavesRefineInEveryRun(cfg, Happens(cfg, x, es[0]), es[1..], force);
    }
  }

  // ---- The log as the tail of what was accepted in this epoch

  /** The diffs accepted since the last re-key that was carried out. */
  ghost function Since<N>(cfg: Config<N>, x: Vault<N>, e: Event<N>, accepted: seq<Diff>): seq<Diff>
    requires cfg.saveInterval > 0 && Sane(e)
  {
    match e
    case Diffs(_, roles, id, d) => Accepted(cfg, x.core, roles[id], d, accepted)
    case Rekeys(roles, id, r, allowed) => if ReachesTransaction(cfg, x, roles[id], r, allowed) then [] else accepted
    case _ => accepted
  }

  ghost function SinceAll<N>(cfg: Config<N>, x: Vault<N>, es: seq<Event<N>>, accepted: seq<Diff>): seq<Diff>
    requires cfg.saveInterval > 0 && Run(cfg, x, es)
    decreases |es|
  {
    if es == [] then accepted
    else SinceAll(cfg, Happens(cfg, x, es[0]), es[1..], Since(cfg, x, es[0], accepted))
  }

  lemma EventKeepsTail<N>(cfg: Config<N>, x: Vault<N>, e: Event<N>, accepted: seq<Diff>)
    requires cfg.saveInterval > 0 && Sane(e) && WellSealed(cfg, x, e) && SaveInv(cfg, x.core)
    requires x.core.doc.diffs == Last(accepted, HISTORY_LENGTH)
    ensures Happens(cfg, x, e).core.doc.diffs == Last(Since(cfg, x, e, accepted), HISTORY_LENGTH)
  {
    match e
    case Diffs(order, roles, id, d) =>
      VersionCountsAccepted(cfg, x.core, order, roles, id, d);
      LastAppend(accepted, [d], HISTORY_LENGTH);
      hide HandleDiff, Accepts, Last;
    case Checks(roles, id, v, offline) =>
      SaveLeavesTheDocument(cfg, x.core, false);
      hide Save, Missing, Last;
    case Reopens =>
      SaveRefinesWritingEverything(cfg, x.core, false);
      SaveLeavesTheDocument(cfg, x.core, false);
      OpenIgnoresTheRest(Save(cfg, x.core, false), x.core.images);
      hide Save, Open, Last;
    case Saves(force) =>
      SaveLeavesTheDocument(cfg, x.core, force);
      hide Save, Last;
    case _ =>
      hide Save, ValidParams, SnapshotOk, WriteKeys;
  }

  /** While every re-key that is carried out is complete, the log is the end of what was accepted since the last one. */
  lemma {:induction false} LogIsTheTail<N>(cfg: Config<N>, x: Vault<N>, es: seq<Event<N>>, accepted: seq<Diff>)
    requires cfg.saveInterval > 0 && Run(cfg, x, es) && SaveInv(cfg, x.core)
    requires x.core.doc.diffs == Last(accepted, HISTORY_LENGTH)
    ensures After(cfg, x, es).core.doc.diffs == Last(SinceAll(cfg, x, es, accepted), HISTORY_LENGTH)
    decreases |es|
  {
    if es != [] {
      hide Happens, Since, SaveInv, WellSealed, Last, Sane;
      EventKeepsTail(cfg, x, es[0], accepted);
      EventKeepsSaveInv(cfg, x, es[0]);
      LogIsTheTail(cfg, Happens(cfg, x, es[0]), es[1..], Since(cfg, x, es[0], accepted));
    }
  }
}
