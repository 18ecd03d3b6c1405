/**
 The whole system for an encrypted document: the server, its row and any number of clients that join, edit, send
 snapshots and re-key, over links that may lose, repeat and reorder whatever is sent.

 The server reads nothing. A client is honest: what it encrypts is what it has. It takes an envelope only at its own
 version and only if the envelope's salt is the one it holds a key for.
 */
module SealedRun {
  import opened Prelude
  import opened Access
  import opened Comments
  import opened Documents
  import opened Session
  import opened Replay
  import opened Epoch
  import Recipients

  /** The clients' side: opening stored ciphertext and applying an envelope, each with the key of a salt. */
  datatype Engine<!N> = Engine(opens: (string, Bytes) -> Option<N>, unseals: (N, Bytes, string) -> Option<N>)

  /** `taken` are the envelopes taken since version `from`, when the client got hold of the salt. */
  datatype Reader<N> = Reader(ver: int, node: N, salt: Option<Bytes>, pending: Option<Diff>, from: int,
                              taken: seq<string>)

  /** `inbox` is everything ever sent to the client, `diffs`, `snapshots` and `rekeys` what it has ever sent. */
  datatype Peer<N> = Peer(role: Role, uid: nat, reader: Reader<N>, inbox: seq<Msg>, diffs: seq<Diff>,
                          snapshots: seq<Snapshot<N>>, rekeys: seq<Rekey>)

  /** Every accepted diff with the connection it came from, since version `start` with document `base`. */
  datatype Past<N> = Past(base: N, start: int, history: seq<Diff>, authors: seq<nat>)

  datatype System<N> = System(past: Past<N>, vault: Vault<N>, peers: map<nat, Peer<N>>, nextUid: nat)

  // ---- Reading

  function Unseal<N>(e: Engine<N>, node: N, d: Diff): Option<N> {
    if d.salt.None? || d.ep.None? then None else e.unseals(node, d.salt.value, d.ep.value)
  }

  function Replayed<N>(e: Engine<N>, base: N, ds: seq<Diff>): Option<N>
    decreases |ds|
  {
    if ds == [] then Some(base)
    else match Replayed(e, base, ds[..|ds| - 1])
      case None => None
      case Some(node) => Unseal(e, node, ds[|ds| - 1])
  }

  function Contents<N>(e: Engine<N>, field: Field<N>, salt: Option<Bytes>): Option<N> {
    match field
    case Plain(node) => Some(node)
    case Cipher(text) => if salt.None? then None else e.opens(text, salt.value)
  }

  // ---- The client

  function TakeEnvelope<N>(e: Engine<N>, r: Reader<N>, d: Diff): Reader<N> {
    if d.v != r.ver || d.salt != r.salt then r
    else match Unseal(e, r.node, d)
      case None => r
      case Some(node) => r.(ver := r.ver + 1, node := node, taken := r.taken + [d.ep.value])
  }

  function Listen<N>(e: Engine<N>, r: Reader<N>, msg: Msg): Reader<N> {
    match msg
    case DiffMsg(d) => TakeEnvelope(e, r, d)
    case ConfirmDiff(rid) =>
      if r.pending.Some? && r.pending.value.rid == Some(rid)
      then TakeEnvelope(e, r, r.pending.value).(pending := None) else r
    case RejectDiff(rid) =>
      if r.pending.Some? && r.pending.value.rid == Some(rid) then r.(pending := None) else r
    case RekeyDone(_, salt, _) => r.(salt := Some(salt), from := r.ver, taken := [])
    case _ => r
  }

  function ListenAll<N>(e: Engine<N>, r: Reader<N>, msgs: seq<Msg>): Reader<N>
    decreases |msgs|
  {
    if msgs == [] then r else ListenAll(e, Listen(e, r, msgs[0]), msgs[1..])
  }

  function SnapshotAt<N>(doc: Doc<N>): int {
    if doc.snapshotVersion.Some? then doc.snapshotVersion.value else 0
  }

  /** `get_doc_data` for an encrypted document: the stored content, at the version of its snapshot. */
  function Loaded<N>(row: Doc<N>, node: N): Reader<N> {
    Reader(SnapshotAt(row), node, row.salt, None, SnapshotAt(row), [])
  }

  /** What a client may send as its document. */
  predicate IsOwnSnapshot<N(==)>(e: Engine<N>, r: Reader<N>, m: Snapshot<N>) {
    && m.v == Some(r.ver) && m.content.Some?
    && match m.content.value
       case Text(text) => m.salt.Some? && e.opens(text, m.salt.value) == Some(r.node)
       case Tree(node) => node == r.node
       case OtherJson => true
  }

  predicate IsOwnRekey<N(==)>(e: Engine<N>, r: Reader<N>, m: Rekey) {
    m.v == Some(r.ver) && m.salt.Some? && m.content.Some? && e.opens(m.content.value, m.salt.value) == Some(r.node)
  }

  // ---- The system

  function Roles<N>(peers: map<nat, Peer<N>>): map<nat, Role> {
    map k | k in peers :: peers[k].role
  }

  function Post<N>(peers: map<nat, Peer<N>>, mail: map<nat, seq<Msg>>): map<nat, Peer<N>> {
    map k | k in peers :: if k in mail then peers[k].(inbox := peers[k].inbox + mail[k]) else peers[k]
  }

  function Remember<N>(past: Past<N>, accepted: bool, d: Diff, uid: nat): Past<N> {
    if accepted then past.(history := past.history + [d], authors := past.authors + [uid]) else past
  }

  datatype Move<N> =
    | ServerTakesDiff(id: nat, order: seq<nat>, d: Diff)
    | ServerTakesCheck(id: nat, v: Option<int>, offline: bool)
    | ServerTakesSnapshot(id: nat, m: Snapshot<N>)
    | ServerTakesRekey(id: nat, r: Rekey, allowed: set<int>)
    | ServerSaves(force: bool)
    | Hears(id: nat, i: nat)
    | Edits(id: nat, d: Diff)
    | Seals(id: nat, m: Snapshot<N>)
    | Rekeys(id: nat, r: Rekey)
    | Reloads(id: nat)
    | RightsChange(id: nat, role: Role)
    | Joins(id: nat, role: Role, connection: int)
    | Leaves(id: nat)

  ghost predicate Enabled<N>(e: Engine<N>, s: System<N>, move: Move<N>) {
    var row := s.vault.core.row;
    match move
    case ServerTakesDiff(id, _, d) => id in s.peers && d in s.peers[id].diffs
    case ServerTakesCheck(id, _, _) => id in s.peers
    case ServerTakesSnapshot(id, m) => id in s.peers && m in s.peers[id].snapshots
    case ServerTakesRekey(id, r, _) => id in s.peers && r in s.peers[id].rekeys
    case ServerSaves(_) => s.peers != map[]
    case Hears(id, i) => id in s.peers && i < |s.peers[id].inbox|
    case Edits(id, d) =>
      && id in s.peers
      && var r := s.peers[id].reader;
         && r.pending.None? && d.v == r.ver && d.salt == r.salt && Unseal(e, r.node, d).Some?
         && d.rid.Some? && forall sent :: sent in s.peers[id].diffs ==> sent.rid != d.rid
    case Seals(id, m) => id in s.peers && IsOwnSnapshot(e, s.peers[id].reader, m)
    case Rekeys(id, r) => id in s.peers && IsOwnRekey(e, s.peers[id].reader, r)
    case Reloads(id) => id in s.peers && Contents(e, row.content, row.salt).Some?
    case RightsChange(id, _) => id in s.peers
    case Joins(id, _, _) => id !in s.peers && Contents(e, row.content, row.salt).Some?
    case Leaves(id) => id in s.peers
  }

  ghost function TakeDiff<N>(cfg: Config<N>, s: System<N>, id: nat, order: seq<nat>, d: Diff): System<N>
    requires cfg.saveInterval > 0 && id in s.peers
  {
    var roles := Roles(s.peers);
    if roles[id].rights !in CAN_UPDATE_DOCUMENT then s
    else
      var f := HandleDiff(cfg, s.vault.core, order, roles, id, d);
      s.(vault := s.vault.(core := f.core), peers := Post(s.peers, f.mail),
         past := Remember(s.past, Accepts(cfg, s.vault.core, roles[id], d), d, s.peers[id].uid))
  }

  ghost function TakeCheck<N>(cfg: Config<N>, s: System<N>, id: nat, v: Option<int>, offline: bool): System<N>
    requires id in s.peers
  {
    var f := CheckVersion(cfg, s.vault.core, Roles(s.peers), id, v, offline);
    s.(vault := s.vault.(core := f.core), peers := Post(s.peers, f.mail))
  }

  ghost function TakeSnapshot<N>(cfg: Config<N>, s: System<N>, id: nat, m: Snapshot<N>): System<N>
    requires id in s.peers
  {
    var f := HandleSnapshot(cfg, s.vault.core, Roles(s.peers), id, m);
    s.(vault := s.vault.(core := f.core), peers := Post(s.peers, f.mail))
  }

  ghost function TakeRekey<N>(cfg: Config<N>, s: System<N>, id: nat, r: Rekey, allowed: set<int>): System<N>
    requires id in s.peers
  {
    var f := HandleRekey(cfg, s.vault, Roles(s.peers), id, r, allowed);
    s.(vault := f.vault, peers := Post(s.peers, f.mail))
  }

  function Entered<N>(s: System<N>, id: nat, role: Role, reader: Reader<N>, core: Core<N>): (t: System<N>)
    ensures id in t.peers
  {
    s.(vault := s.vault.(core := core), peers := s.peers[id := Peer(role, s.nextUid, reader, [], [], [], [])],
       nextUid := s.nextUid + 1)
  }

  ghost function Joined<N>(e: Engine<N>, cfg: Config<N>, s: System<N>, id: nat, role: Role, connection: int): System<N>
    requires var row := s.vault.core.row; Contents(e, row.content, row.salt).Some?
  {
    var row := s.vault.core.row;
    var core := if s.peers == map[] then Open(row, s.vault.core.images) else s.vault.core;
    var reader := Loaded(row, Contents(e, row.content, row.salt).value);
    var entered := Entered(s, id, role, reader, core);
    var f := Greet(cfg, core, Roles(entered.peers), id, connection, Some(reader.ver));
    entered.(vault := entered.vault.(core := f.core), peers := Post(entered.peers, f.mail))
  }

  ghost function Left<N>(cfg: Config<N>, s: System<N>, id: nat): System<N>
    requires id in s.peers
  {
    var peers := s.peers - {id};
    s.(vault := if peers == map[] then s.vault.(core := Save(cfg, s.vault.core, false)) else s.vault,
       peers := Post(peers, ParticipantList(Roles(peers))))
  }

  ghost function Moved<N>(e: Engine<N>, cfg: Config<N>, s: System<N>, move: Move<N>): System<N>
    requires cfg.saveInterval > 0 && Enabled(e, s, move)
  {
    match move
    case ServerTakesDiff(id, order, d) => TakeDiff(cfg, s, id, order, d)
    case ServerTakesCheck(id, v, offline) => TakeCheck(cfg, s, id, v, offline)
    case ServerTakesSnapshot(id, m) => TakeSnapshot(cfg, s, id, m)
    case ServerTakesRekey(id, r, allowed) => TakeRekey(cfg, s, id, r, allowed)
    case ServerSaves(force) => s.(vault := s.vault.(core := Save(cfg, s.vault.core, force)))
    case Hears(id, i) =>
      var p := s.peers[id];
      s.(peers := s.peers[id := p.(reader := Listen(e, p.reader, p.inbox[i]))])
    case Edits(id, d) =>
      var p := s.peers[id];
      s.(peers := s.peers[id := p.(reader := p.reader.(pending := Some(d)), diffs := p.diffs + [d])])
    case Seals(id, m) => s.(peers := s.peers[id := s.peers[id].(snapshots := s.peers[id].snapshots + [m])])
    case Rekeys(id, r) => s.(peers := s.peers[id := s.peers[id].(rekeys := s.peers[id].rekeys + [r])])
    case Reloads(id) =>
      var row := s.vault.core.row;
      s.(peers := s.peers[id := s.peers[id].(reader := Loaded(row, Contents(e, row.content, row.salt).value))])
    case RightsChange(id, role) => s.(peers := s.peers[id := s.peers[id].(role := role)])
    case Joins(id, role, connection) => Joined(e, cfg, s, id, role, connection)
    case Leaves(id) => Left(cfg, s, id)
  }

  // ---- The invariant

  /** The document of version `v`. */
  ghost function At<N>(e: Engine<N>, past: Past<N>, v: int): Option<N>
    requires past.start <= v <= past.start + |past.history|
  {
    Replayed(e, past.base, past.history[..v - past.start])
  }

  ghost predicate IsAt<N>(e: Engine<N>, past: Past<N>, v: int, node: Option<N>) {
    past.start <= v <= past.start + |past.history| && node.Some? && At(e, past, v) == node
  }

  ghost predicate TruthfulEnvelope<N>(past: Past<N>, d: Diff) {
    && past.start <= d.v < past.start + |past.history|
    && var accepted := past.history[d.v - past.start]; d.salt == accepted.salt && d.ep == accepted.ep
  }

  ghost predicate Confirmed<N>(past: Past<N>, uid: nat, rid: string) {
    |past.authors| == |past.history| &&
    exists i :: 0 <= i < |past.history| && past.authors[i] == uid && past.history[i].rid == Some(rid)
  }

  ghost predicate Truthful<N>(past: Past<N>, uid: nat, m: Msg) {
    match m
    case DiffMsg(d) => TruthfulEnvelope(past, d)
    case ConfirmDiff(rid) => Confirmed(past, uid, rid)
    case _ => true
  }

  ghost predicate AllTruthful<N>(past: Past<N>, uid: nat, msgs: seq<Msg>) {
    forall i :: 0 <= i < |msgs| ==> Truthful(past, uid, msgs[i])
  }

  ghost predicate IsEnvelope<N>(past: Past<N>, v: int, ep: string, salt: Option<Bytes>) {
    && past.start <= v < past.start + |past.history|
    && past.history[v - past.start].ep == Some(ep) && past.history[v - past.start].salt == salt
  }

  /** The accepted envelopes from version `from` on, in order, each of that salt. */
  ghost predicate TakenFrom<N>(past: Past<N>, from: int, taken: seq<string>, salt: Option<Bytes>) {
    forall i :: 0 <= i < |taken| ==> IsEnvelope(past, from + i, taken[i], salt)
  }

  /** The client is on the server's path, and what it has taken since it got hold of its salt are the accepted envelopes
      from then on, in order, each of that salt. */
  ghost predicate ReaderOk<N>(e: Engine<N>, past: Past<N>, r: Reader<N>) {
    && IsAt(e, past, r.ver, Some(r.node))
    && r.from + |r.taken| == r.ver && TakenFrom(past, r.from, r.taken, r.salt)
  }

  /** The diff was made on the document of its version. */
  ghost predicate DiffFits<N>(e: Engine<N>, past: Past<N>, d: Diff) {
    && d.rid.Some? && past.start <= d.v <= past.start + |past.history|
    && At(e, past, d.v).Some? && Unseal(e, At(e, past, d.v).value, d).Some?
  }

  ghost predicate SnapshotFits<N>(e: Engine<N>, past: Past<N>, m: Snapshot<N>) {
    m.v.Some? && m.content.Some? &&
    match m.content.value
    case Text(text) => m.salt.Some? && IsAt(e, past, m.v.value, e.opens(text, m.salt.value))
    case Tree(node) => IsAt(e, past, m.v.value, Some(node))
    case OtherJson => true
  }

  ghost predicate RekeyFits<N>(e: Engine<N>, past: Past<N>, m: Rekey) {
    m.v.Some? && m.salt.Some? && m.content.Some? && IsAt(e, past, m.v.value, e.opens(m.content.value, m.salt.value))
  }

  ghost predicate DiffsOk<N>(e: Engine<N>, past: Past<N>, p: Peer<N>) {
    && |past.authors| == |past.history|
    && (forall d :: d in p.diffs ==> DiffFits(e, past, d))
    && (forall c, d :: c in p.diffs && d in p.diffs && c.rid == d.rid ==> c == d)
    && (p.reader.pending.Some? ==> p.reader.pending.value in p.diffs)
    && (forall i :: 0 <= i < |past.history| && past.authors[i] == p.uid ==> past.history[i] in p.diffs)
  }

  ghost predicate OutboxOk<N>(e: Engine<N>, past: Past<N>, p: Peer<N>) {
    && (forall m :: m in p.snapshots ==> SnapshotFits(e, past, m))
    && (forall m :: m in p.rekeys ==> RekeyFits(e, past, m))
  }

  ghost predicate PeerOk<N>(e: Engine<N>, past: Past<N>, p: Peer<N>) {
    ReaderOk(e, past, p.reader) && AllTruthful(past, p.uid, p.inbox) && DiffsOk(e, past, p) && OutboxOk(e, past, p)
  }

  ghost predicate PastOk<N>(e: Engine<N>, past: Past<N>) {
    && |past.authors| == |past.history|
    && Replayed(e, past.base, past.history).Some?
    && forall i :: 0 <= i < |past.history| ==> past.history[i].v == past.start + i
  }

  /** Log and snapshot of a document, in memory or in the row, belong to the past. */
  ghost predicate DocOk<N>(e: Engine<N>, past: Past<N>, doc: Doc<N>) {
    && LogOk(doc)
    && past.start + |doc.diffs| <= doc.version <= past.start + |past.history|
    && (forall i :: 0 <= i < |doc.diffs| ==> TruthfulEnvelope(past, doc.diffs[i]))
    && IsAt(e, past, SnapshotAt(doc), Contents(e, doc.content, doc.salt)) && SnapshotAt(doc) <= doc.version
  }

  ghost predicate CoreOk<N>(e: Engine<N>, past: Past<N>, core: Core<N>) {
    && DocOk(e, past, core.doc) && DocOk(e, past, core.row)
    && core.doc.version == past.start + |past.history|
    && core.lastSaved <= core.row.version
  }

  ghost predicate UidsOk<N>(s: System<N>) {
    && (forall k :: k in s.peers ==> s.peers[k].uid < s.nextUid)
    && (forall k, j :: k in s.peers && j in s.peers && k != j ==> s.peers[k].uid != s.peers[j].uid)
    && (forall i :: 0 <= i < |s.past.authors| ==> s.past.authors[i] < s.nextUid)
  }

  ghost predicate PeersOk<N>(e: Engine<N>, past: Past<N>, peers: map<nat, Peer<N>>) {
    forall k :: k in peers ==> PeerOk(e, past, peers[k])
  }

  ghost predicate Inv<N>(e: Engine<N>, s: System<N>) {
    && PastOk(e, s.past) && CoreOk(e, s.past, s.vault.core) && UidsOk(s) && PeersOk(e, s.past, s.peers)
    && (s.peers == map[] ==> s.vault.core.row.version == s.vault.core.doc.version)
  }

  // ---- The past grows

  lemma AtGrows<N>(e: Engine<N>, past: Past<N>, d: Diff, author: nat)
    ensures var after := Remember(past, true, d, author);
      forall v :: past.start <= v <= past.start + |past.history| ==> At(e, after, v) == At(e, past, v)
  {
    var after := Remember(past, true, d, author);
    forall v | past.start <= v <= past.start + |past.history| ensures At(e, after, v) == At(e, past, v) {
      assert after.history[..v - past.start] == past.history[..v - past.start];
    }
  }

  lemma TakenGrows<N>(past: Past<N>, from: int, taken: seq<string>, salt: Option<Bytes>, d: Diff, author: nat)
    requires TakenFrom(past, from, taken, salt)
    ensures TakenFrom(Remember(past, true, d, author), from, taken, salt)
  {
    var after := Remember(past, true, d, author);
    forall i | 0 <= i < |taken| ensures IsEnvelope(after, from + i, taken[i], salt) {
      assert IsEnvelope(past, from + i, taken[i], salt);
    }
  }

  lemma ReaderGrows<N>(e: Engine<N>, past: Past<N>, r: Reader<N>, d: Diff, author: nat)
    requires ReaderOk(e, past, r)
    ensures ReaderOk(e, Remember(past, true, d, author), r)
  {
    AtGrows(e, past, d, author);
    TakenGrows(past, r.from, r.taken, r.salt, d, author);
    hide At, TakenFrom;
  }

  lemma MessageGrows<N>(past: Past<N>, d: Diff, author: nat, uid: nat, m: Msg)
    requires |past.authors| == |past.history| && Truthful(past, uid, m)
    ensures Truthful(Remember(past, true, d, author), uid, m)
  {
    if m.ConfirmDiff? {
      var after := Remember(past, true, d, author);
      var i :| 0 <= i < |past.history| && past.authors[i] == uid && past.history[i].rid == Some(m.rid);
      assert after.authors[i] == uid && after.history[i].rid == Some(m.rid);
    }
  }

  lemma DiffsGrow<N>(e: Engine<N>, past: Past<N>, p: Peer<N>, d: Diff, author: nat)
    requires DiffsOk(e, past, p) && (p.uid == author ==> d in p.diffs)
    ensures DiffsOk(e, Remember(past, true, d, author), p)
  {
    AtGrows(e, past, d, author);
    var after := Remember(past, true, d, author);
    forall sent | sent in p.diffs ensures DiffFits(e, after, sent) {
      assert DiffFits(e, past, sent);
    }
    hide At, DiffFits;
  }

  lemma OutboxGrows<N>(e: Engine<N>, past: Past<N>, p: Peer<N>, d: Diff, author: nat)
    requires OutboxOk(e, past, p)
    ensures OutboxOk(e, Remember(past, true, d, author), p)
  {
    AtGrows(e, past, d, author);
    hide At;
  }

  lemma PeerGrows<N>(e: Engine<N>, past: Past<N>, p: Peer<N>, d: Diff, author: nat)
    requires PeerOk(e, past, p) && (p.uid == author ==> d in p.diffs)
    ensures PeerOk(e, Remember(past, true, d, author), p)
  {
    ReaderGrows(e, past, p.reader, d, author);
    DiffsGrow(e, past, p, d, author);
    OutboxGrows(e, past, p, d, author);
    forall i | 0 <= i < |p.inbox| ensures Truthful(Remember(past, true, d, author), p.uid, p.inbox[i]) {
      assert |past.authors| == |past.history|;
      MessageGrows(past, d, author, p.uid, p.inbox[i]);
    }
    hide ReaderOk, Truthful, OutboxOk;
  }

  lemma DocGrows<N>(e: Engine<N>, past: Past<N>, doc: Doc<N>, d: Diff, author: nat)
    requires DocOk(e, past, doc)
    ensures DocOk(e, Remember(past, true, d, author), doc)
  {
    AtGrows(e, past, d, author);
    hide At, LogOk, Contents;
  }

  /** A diff made on the document of its version, accepted at that version, makes the next one. */
  lemma PastGrows<N>(e: Engine<N>, past: Past<N>, d: Diff, author: nat)
    requires PastOk(e, past) && DiffFits(e, past, d) && d.v == past.start + |past.history|
    ensures PastOk(e, Remember(past, true, d, author))
  {
    assert past.history[..|past.history|] == past.history;
    assert (past.history + [d])[..|past.history|] == past.history;
    hide Unseal;
  }

  // ---- The server

  lemma SaveKeepsCore<N>(e: Engine<N>, past: Past<N>, cfg: Config<N>, core: Core<N>, force: bool)
    requires CoreOk(e, past, core)
    ensures var c := Save(cfg, core, force);
      CoreOk(e, past, c) && c.row.version == core.doc.version && c.doc == core.doc
  {
    hide IsAt, TruthfulEnvelope;
  }

  lemma LogKeepsDoc<N>(e: Engine<N>, past: Past<N>, core: Core<N>, d: Diff, author: nat)
    requires DocOk(e, past, core.doc) && core.doc.version == past.start + |past.history|
    requires d.v == core.doc.version && d.salt == core.doc.salt
    ensures DocOk(e, Remember(past, true, d, author), Log(core, d).doc)
  {
    var after := Remember(past, true, d, author);
    DocGrows(e, past, core.doc, d, author);
    LogKeepsLog(core, d);
    var all := core.doc.diffs + [d];
    assert TruthfulEnvelope(after, d) by {
      assert after.history[|past.history|] == d;
    }
    assert forall i :: 0 <= i < |all| ==> TruthfulEnvelope(after, all[i]);
    var kept := Last(all, HISTORY_LENGTH);
    LastFromStart(all, HISTORY_LENGTH);
    hide LogOk, IsAt, TruthfulEnvelope, Contents;
  }

  lemma DiffKeepsCore<N>(e: Engine<N>, past: Past<N>, cfg: Config<N>, core: Core<N>, order: seq<nat>,
                         roles: map<nat, Role>, id: nat, d: Diff, author: nat)
    requires cfg.saveInterval > 0 && id in roles && CoreOk(e, past, core) && PastOk(e, past) && DiffFits(e, past, d)
    ensures var after := Remember(past, Accepts(cfg, core, roles[id], d), d, author);
      PastOk(e, after) && CoreOk(e, after, HandleDiff(cfg, core, order, roles, id, d).core)
  {
    SaveKeepsCore(e, past, cfg, core, false);
    if Accepts(cfg, core, roles[id], d) {
      PastGrows(e, past, d, author);
      LogKeepsDoc(e, past, core, d, author);
      DocGrows(e, past, core.row, d, author);
    }
    hide DocOk, AcceptPlain, FirstWriter, Discarded, Missing, Save, DiffFits, PastOk;
    assert core.doc.e2ee by { DocIsSealed(e, past, core.doc); }
  }

  lemma DocIsSealed<N>(e: Engine<N>, past: Past<N>, doc: Doc<N>)
    requires DocOk(e, past, doc)
    ensures doc.e2ee && doc.salt.Some? && LogOk(doc)
  {
  }

  lemma CheckKeepsCore<N>(e: Engine<N>, past: Past<N>, cfg: Config<N>, core: Core<N>, roles: map<nat, Role>, id: nat,
                          v: Option<int>, offline: bool)
    requires id in roles && CoreOk(e, past, core)
    ensures CoreOk(e, past, CheckVersion(cfg, core, roles, id, v, offline).core)
  {
    SaveKeepsCore(e, past, cfg, core, false);
    hide CoreOk, Save, Missing;
  }

  lemma StoredKeepsCore<N>(e: Engine<N>, past: Past<N>, core: Core<N>, m: Snapshot<N>)
    requires CoreOk(e, past, core) && core.doc.salt.Some? && SnapshotOk(core.doc, m) && SnapshotFits(e, past, m)
    ensures CoreOk(e, past, core.(doc := StoreSnapshot(core.doc, m)))
  {
    hide IsAt, TruthfulEnvelope, ValidParams;
  }

  lemma SnapshotKeepsCore<N>(e: Engine<N>, past: Past<N>, cfg: Config<N>, core: Core<N>, roles: map<nat, Role>, id: nat,
                             m: Snapshot<N>)
    requires id in roles && CoreOk(e, past, core) && SnapshotFits(e, past, m)
    ensures CoreOk(e, past, HandleSnapshot(cfg, core, roles, id, m).core)
  {
    if core.doc.salt.Some? && SnapshotOk(core.doc, m) {
      StoredKeepsCore(e, past, core, m);
      SaveKeepsCore(e, past, cfg, core.(doc := StoreSnapshot(core.doc, m)), true);
    }
    hide CoreOk, Save, SnapshotOk, ValidParams, SnapshotFits, StoreSnapshot;
  }

  lemma RekeyedDocIsOk<N>(e: Engine<N>, past: Past<N>, doc: Doc<N>, m: Rekey)
    requires DocOk(e, past, doc) && RekeyOk(doc, m) && RekeyFits(e, past, m)
    ensures DocOk(e, past, RekeyDoc(doc, m))
  {
    hide IsAt, TruthfulEnvelope, ValidParams;
  }

  lemma RekeyKeepsCore<N>(e: Engine<N>, past: Past<N>, cfg: Config<N>, x: Vault<N>, roles: map<nat, Role>, id: nat,
                          m: Rekey, allowed: set<int>)
    requires id in roles && CoreOk(e, past, x.core) && RekeyFits(e, past, m)
    ensures CoreOk(e, past, HandleRekey(cfg, x, roles, id, m, allowed).vault.core)
  {
    if ReachesTransaction(cfg, x, roles[id], m, allowed) {
      RekeyedDocIsOk(e, past, x.core.doc, m);
    }
    hide DocOk, WriteKeys, ValidParams, RekeyFits, Complete;
  }

  lemma OpenKeepsCore<N>(e: Engine<N>, past: Past<N>, core: Core<N>)
    requires CoreOk(e, past, core) && core.row.version == core.doc.version
    ensures CoreOk(e, past, Open(core.row, core.images))
  {
    hide DocOk;
  }

  // ---- What is sent

  lemma TruthfulIsEnough<N>(past: Past<N>, d: Diff, sent: Diff)
    requires TruthfulEnvelope(past, d) && sent.v == d.v && sent.salt == d.salt && sent.ep == d.ep
    ensures TruthfulEnvelope(past, sent)
  {
  }

  lemma MissingIsTruthful<N>(e: Engine<N>, past: Past<N>, doc: Doc<N>, behind: nat, role: Role, comments: CommentMap,
                             uid: nat)
    requires DocOk(e, past, doc) && behind <= |doc.diffs|
    ensures AllTruthful(past, uid, Missing(doc.diffs, behind, role, comments))
  {
    var msgs := Missing(doc.diffs, behind, role, comments);
    var tail := Last(doc.diffs, behind);
    LastFromStart(doc.diffs, behind);
    assert |tail| == behind;
    forall i | 0 <= i < |msgs| ensures Truthful(past, uid, msgs[i]) {
      assert TruthfulEnvelope(past, doc.diffs[|doc.diffs| - behind + i]);
      TruthfulIsEnough(past, tail[i], msgs[i].d);
    }
    hide FilterUpdates, IsAt, LogOk, TruthfulEnvelope, Last;
  }

  lemma ConcatIsTruthful<N>(past: Past<N>, uid: nat, a: seq<Msg>, b: seq<Msg>)
    requires AllTruthful(past, uid, a) && AllTruthful(past, uid, b)
    ensures AllTruthful(past, uid, a + b)
  {
    hide Truthful;
  }

  lemma NoticesAreTruthful<N>(past: Past<N>, uid: nat, msgs: seq<Msg>)
    requires forall i :: 0 <= i < |msgs| ==> !msgs[i].DiffMsg? && !msgs[i].ConfirmDiff?
    ensures AllTruthful(past, uid, msgs)
  {
  }

  lemma CheckMailIsTruthful<N>(e: Engine<N>, past: Past<N>, cfg: Config<N>, core: Core<N>, roles: map<nat, Role>,
                               id: nat, v: Option<int>, offline: bool, k: nat, uid: nat)
    requires id in roles && k in roles && CoreOk(e, past, core)
    ensures var mail := CheckVersion(cfg, core, roles, id, v, offline).mail;
      k in mail && AllTruthful(past, uid, mail[k])
  {
    hide Missing, Save, DocOk, Confirmed, TruthfulEnvelope;
    if v.Some? && v.value < core.doc.version && !offline && v.value + |core.doc.diffs| >= core.doc.version {
      var behind := core.doc.version - v.value;
      MissingIsTruthful(e, past, core.doc, behind, roles[id], PlainComments(core.doc.comments), uid);
    }
  }

  lemma AcceptedIsTruthful<N>(past: Past<N>, d: Diff, author: nat)
    requires |past.authors| == |past.history| && d.v == past.start + |past.history|
    ensures var after := Remember(past, true, d, author);
      && TruthfulEnvelope(after, d)
      && (d.rid.Some? ==> Confirmed(after, author, d.rid.value))
  {
    var after := Remember(past, true, d, author);
    assert after.authors[|past.history|] == author && after.history[|past.history|] == d;
  }

  lemma RelayedIsTruthful<N>(past: Past<N>, cfg: Config<N>, core: Core<N>, order: seq<nat>, roles: map<nat, Role>,
                             id: nat, d: Diff, author: nat, k: nat, uid: nat)
    requires cfg.saveInterval > 0 && id in roles && k in roles && core.doc.salt.Some?
    requires |past.authors| == |past.history| && d.v == past.start + |past.history| && (k == id ==> uid == author)
    ensures var f := AcceptEncrypted(cfg, core, order, roles, id, d);
      k in f.mail && AllTruthful(Remember(past, SaltMatches(core, d), d, author), uid, f.mail[k])
  {
    AcceptedIsTruthful(past, d, author);
    hide FirstWriter, TruthfulEnvelope, Confirmed, Log, Remember;
  }

  lemma DiffMailIsTruthful<N>(e: Engine<N>, past: Past<N>, cfg: Config<N>, core: Core<N>, order: seq<nat>,
                              roles: map<nat, Role>, id: nat, d: Diff, author: nat, k: nat, uid: nat)
    requires cfg.saveInterval > 0 && id in roles && k in roles && CoreOk(e, past, core)
    requires |past.authors| == |past.history| && (k == id ==> uid == author)
    ensures var f := HandleDiff(cfg, core, order, roles, id, d);
      k in f.mail && AllTruthful(Remember(past, Accepts(cfg, core, roles[id], d), d, author), uid, f.mail[k])
  {
    DocIsSealed(e, past, core.doc);
    hide DocOk, AcceptPlain, AcceptEncrypted, Discarded, Missing, Save, TruthfulEnvelope, Confirmed, SaltMatches;
    if d.v == core.doc.version {
      RelayedIsTruthful(past, cfg, core, order, roles, id, d, author, k, uid);
    } else if d.v < core.doc.version && d.v + |core.doc.diffs| >= core.doc.version {
      MissingIsTruthful(e, past, core.doc, core.doc.version - d.v, roles[id], PlainComments(core.doc.comments), uid);
    }
  }


  lemma GreetMailIsTruthful<N>(e: Engine<N>, past: Past<N>, cfg: Config<N>, core: Core<N>, roles: map<nat, Role>,
                               id: nat, connection: int, v: Option<int>, k: nat, uid: nat)
    requires id in roles && k in roles && CoreOk(e, past, core)
    ensures AllTruthful(past, uid, Greet(cfg, core, roles, id, connection, v).mail[k])
  {
    hide CheckVersion, CoreOk, AllTruthful;
    CheckMailIsTruthful(e, past, cfg, core, roles, id, v, false, k, uid);
    NoticesAreTruthful(past, uid, [Subscribed, SessionInfo(id, roles[id].rights)]);
    NoticesAreTruthful(past, uid, [Subscribed, AccessRight(roles[id].rights)]);
    NoticesAreTruthful(past, uid, [Connections]);
    NoticesAreTruthful(past, uid, []);
    var greeting := if k != id then [] else if connection < 1 then [Subscribed, SessionInfo(id, roles[id].rights)]
                    else [Subscribed, AccessRight(roles[id].rights)];
    var checked := CheckVersion(cfg, core, roles, id, v, false).mail[k];
    var announced := if roles[id].rights in CAN_COMMUNICATE then ParticipantList(roles)[k] else [];
    ConcatIsTruthful(past, uid, greeting, checked);
    ConcatIsTruthful(past, uid, greeting + checked, announced);
    ConcatIsTruthful(past, uid, greeting, announced);
  }

  // ---- The client

  lemma TakenOneMore<N>(past: Past<N>, from: int, taken: seq<string>, salt: Option<Bytes>, ep: string)
    requires TakenFrom(past, from, taken, salt) && IsEnvelope(past, from + |taken|, ep, salt)
    ensures TakenFrom(past, from, taken + [ep], salt)
  {
    hide IsEnvelope;
  }

  lemma AtNext<N>(e: Engine<N>, past: Past<N>, v: int, node: N)
    requires past.start <= v < past.start + |past.history| && At(e, past, v) == Some(node)
    ensures At(e, past, v + 1) == Unseal(e, node, past.history[v - past.start])
  {
    var n := v - past.start;
    assert past.history[..n + 1][..n] == past.history[..n];
  }

  lemma TakeKeepsReader<N>(e: Engine<N>, past: Past<N>, r: Reader<N>, d: Diff)
    requires ReaderOk(e, past, r) && TruthfulEnvelope(past, d)
    ensures ReaderOk(e, past, TakeEnvelope(e, r, d))
  {
    if d.v == r.ver && d.salt == r.salt {
      AtNext(e, past, r.ver, r.node);
      assert Unseal(e, r.node, d) == Unseal(e, r.node, past.history[r.ver - past.start]);
      if d.ep.Some? {
        TakenOneMore(past, r.from, r.taken, r.salt, d.ep.value);
      }
    }
    hide At, TakenFrom;
  }

  lemma ConfirmedIsPending<N>(e: Engine<N>, past: Past<N>, p: Peer<N>, rid: string)
    requires DiffsOk(e, past, p) && Confirmed(past, p.uid, rid)
    requires forall i :: 0 <= i < |past.history| ==> past.history[i].v == past.start + i
    requires p.reader.pending.Some? && p.reader.pending.value.rid == Some(rid)
    ensures TruthfulEnvelope(past, p.reader.pending.value)
  {
    var i :| 0 <= i < |past.history| && past.authors[i] == p.uid && past.history[i].rid == Some(rid);
    assert past.history[i] in p.diffs && p.reader.pending.value in p.diffs;
    hide DiffFits;
  }

  lemma SameDocumentIsOk<N>(e: Engine<N>, past: Past<N>, r: Reader<N>, pending: Option<Diff>, salt: Option<Bytes>)
    requires ReaderOk(e, past, r)
    ensures ReaderOk(e, past, r.(pending := pending))
    ensures ReaderOk(e, past, r.(salt := salt, from := r.ver, taken := []))
  {
    hide At;
  }

  lemma TakingSparesPending<N>(e: Engine<N>, r: Reader<N>, d: Diff)
    ensures TakeEnvelope(e, r, d).pending == r.pending
  {
  }

  lemma ListenKeepsReader<N>(e: Engine<N>, past: Past<N>, p: Peer<N>, m: Msg)
    requires PastOk(e, past) && ReaderOk(e, past, p.reader) && DiffsOk(e, past, p) && Truthful(past, p.uid, m)
    ensures ReaderOk(e, past, Listen(e, p.reader, m))
    ensures Listen(e, p.reader, m).pending == p.reader.pending || Listen(e, p.reader, m).pending == None
  {
    hide ReaderOk, DiffsOk, TruthfulEnvelope, Confirmed, TakeEnvelope, Replayed;
    match m
    case DiffMsg(d) =>
      TakeKeepsReader(e, past, p.reader, d);
      TakingSparesPending(e, p.reader, d);
    case ConfirmDiff(rid) =>
      if p.reader.pending.Some? && p.reader.pending.value.rid == Some(rid) {
        var own := p.reader.pending.value;
        ConfirmedIsPending(e, past, p, rid);
        TakeKeepsReader(e, past, p.reader, own);
        SameDocumentIsOk(e, past, TakeEnvelope(e, p.reader, own), None, None);
      }
    case RejectDiff(_) => SameDocumentIsOk(e, past, p.reader, None, None);
    case RekeyDone(_, salt, _) => SameDocumentIsOk(e, past, p.reader, None, Some(salt));
    case _ =>
  }

  lemma LoadedIsOk<N>(e: Engine<N>, past: Past<N>, row: Doc<N>)
    requires DocOk(e, past, row)
    ensures Contents(e, row.content, row.salt).Some?
    ensures ReaderOk(e, past, Loaded(row, Contents(e, row.content, row.salt).value))
  {
  }

  lemma EditsKeepsPeer<N>(e: Engine<N>, past: Past<N>, p: Peer<N>, d: Diff)
    requires PeerOk(e, past, p)
    requires var r := p.reader;
      && r.pending.None? && d.v == r.ver && d.salt == r.salt && Unseal(e, r.node, d).Some?
      && d.rid.Some? && forall sent :: sent in p.diffs ==> sent.rid != d.rid
    ensures PeerOk(e, past, p.(reader := p.reader.(pending := Some(d)), diffs := p.diffs + [d]))
  {
    assert DiffFits(e, past, d);
    var q := p.(reader := p.reader.(pending := Some(d)), diffs := p.diffs + [d]);
    SameDocumentIsOk(e, past, p.reader, Some(d), None);
    assert d in q.diffs && forall sent :: sent in q.diffs ==> sent in p.diffs || sent == d;
    hide DiffFits, ReaderOk, Truthful, SnapshotFits, RekeyFits;
    forall i | 0 <= i < |past.history| && past.authors[i] == q.uid ensures past.history[i] in q.diffs {
      assert past.history[i] in p.diffs;
    }
    assert DiffsOk(e, past, q);
  }

  lemma SealsKeepsPeer<N>(e: Engine<N>, past: Past<N>, p: Peer<N>, m: Snapshot<N>)
    requires PeerOk(e, past, p) && IsOwnSnapshot(e, p.reader, m)
    ensures PeerOk(e, past, p.(snapshots := p.snapshots + [m]))
  {
    assert SnapshotFits(e, past, m);
    hide SnapshotFits, RekeyFits, IsAt, Truthful, DiffFits;
  }

  lemma RekeysKeepsPeer<N>(e: Engine<N>, past: Past<N>, p: Peer<N>, m: Rekey)
    requires PeerOk(e, past, p) && IsOwnRekey(e, p.reader, m)
    ensures PeerOk(e, past, p.(rekeys := p.rekeys + [m]))
  {
    assert RekeyFits(e, past, m);
    hide SnapshotFits, RekeyFits, IsAt, Truthful, DiffFits;
  }

  // ---- The steps

  lemma SameUids<N>(s: System<N>, t: System<N>)
    requires UidsOk(s) && t.peers.Keys == s.peers.Keys && t.nextUid == s.nextUid && t.past.authors == s.past.authors
    requires forall k :: k in s.peers ==> t.peers[k].uid == s.peers[k].uid
    ensures UidsOk(t)
  {
  }

  lemma ReplaceKeepsInv<N>(e: Engine<N>, s: System<N>, id: nat, q: Peer<N>)
    requires Inv(e, s) && id in s.peers && q.uid == s.peers[id].uid && PeerOk(e, s.past, q)
    ensures Inv(e, s.(peers := s.peers[id := q]))
  {
    var t := s.(peers := s.peers[id := q]);
    assert t.peers.Keys == s.peers.Keys && id in t.peers;
    SameUids(s, t);
    OneReplaced(e, s.past, s.peers, id, q);
    hide PeerOk, PastOk, CoreOk, UidsOk, PeersOk;
  }

  lemma OneReplaced<N>(e: Engine<N>, past: Past<N>, peers: map<nat, Peer<N>>, id: nat, q: Peer<N>)
    requires PeersOk(e, past, peers) && PeerOk(e, past, q)
    ensures PeersOk(e, past, peers[id := q])
  {
    hide PeerOk;
  }

  ghost predicate MailOk<N>(past: Past<N>, peers: map<nat, Peer<N>>, mail: map<nat, seq<Msg>>) {
    forall k :: k in peers && k in mail ==> AllTruthful(past, peers[k].uid, mail[k])
  }

  lemma DeliveryKeepsPeer<N>(e: Engine<N>, past: Past<N>, p: Peer<N>, msgs: seq<Msg>)
    requires PeerOk(e, past, p) && AllTruthful(past, p.uid, msgs)
    ensures PeerOk(e, past, p.(inbox := p.inbox + msgs))
  {
    ConcatIsTruthful(past, p.uid, p.inbox, msgs);
    hide AllTruthful, ReaderOk, OutboxOk, DiffFits;
  }

  /** New state of the server, and mail that tells the truth. */
  lemma ServerKeepsInv<N>(e: Engine<N>, s: System<N>, vault: Vault<N>, mail: map<nat, seq<Msg>>)
    requires Inv(e, s) && s.peers != map[] && CoreOk(e, s.past, vault.core) && MailOk(s.past, s.peers, mail)
    ensures Inv(e, s.(vault := vault, peers := Post(s.peers, mail)))
  {
    var after := Post(s.peers, mail);
    forall k | k in after ensures PeerOk(e, s.past, after[k]) && after[k].uid == s.peers[k].uid {
      assert PeerOk(e, s.past, s.peers[k]);
      if k in mail {
        DeliveryKeepsPeer(e, s.past, s.peers[k], mail[k]);
      }
    }
    assert after.Keys == s.peers.Keys;
    SameUids(s, s.(vault := vault, peers := after));
    assert after != map[] by {
      var k :| k in s.peers;
      assert k in after;
    }
    hide PeerOk, PastOk, CoreOk, AllTruthful, Post, UidsOk;
  }

  lemma RememberKeepsInv<N>(e: Engine<N>, s: System<N>, id: nat, d: Diff, core: Core<N>)
    requires Inv(e, s) && id in s.peers && d in s.peers[id].diffs
    requires var after := Remember(s.past, true, d, s.peers[id].uid); PastOk(e, after) && CoreOk(e, after, core)
    ensures Inv(e, s.(past := Remember(s.past, true, d, s.peers[id].uid), vault := s.vault.(core := core)))
  {
    var uid := s.peers[id].uid;
    forall k | k in s.peers ensures PeerOk(e, Remember(s.past, true, d, uid), s.peers[k]) {
      assert PeerOk(e, s.past, s.peers[k]);
      PeerGrows(e, s.past, s.peers[k], d, uid);
    }
    OneMoreAuthor(s, id, d, core);
    hide PeerOk, PastOk, CoreOk, UidsOk;
  }

  lemma OneMoreAuthor<N>(s: System<N>, id: nat, d: Diff, core: Core<N>)
    requires UidsOk(s) && id in s.peers
    ensures UidsOk(s.(past := Remember(s.past, true, d, s.peers[id].uid), vault := s.vault.(core := core)))
  {
  }

  lemma InvParts<N>(e: Engine<N>, s: System<N>)
    requires Inv(e, s)
    ensures PastOk(e, s.past) && CoreOk(e, s.past, s.vault.core) && |s.past.authors| == |s.past.history|
    ensures forall k :: k in s.peers ==> PeerOk(e, s.past, s.peers[k])
    ensures forall k :: k in s.peers ==> s.peers != map[]
    ensures forall k, j :: k in s.peers && j in s.peers && k != j ==> s.peers[k].uid != s.peers[j].uid
  {
    hide PeerOk, CoreOk;
  }

  lemma GivenOutFits<N>(e: Engine<N>, past: Past<N>, p: Peer<N>)
    requires PeerOk(e, past, p)
    ensures forall d :: d in p.diffs ==> DiffFits(e, past, d)
    ensures forall m :: m in p.snapshots ==> SnapshotFits(e, past, m)
    ensures forall m :: m in p.rekeys ==> RekeyFits(e, past, m)
    ensures ReaderOk(e, past, p.reader) && DiffsOk(e, past, p)
  {
    hide ReaderOk, DiffFits, SnapshotFits, RekeyFits;
  }

  lemma TakeDiffKeepsInv<N>(e: Engine<N>, cfg: Config<N>, s: System<N>, id: nat, order: seq<nat>, d: Diff)
    requires cfg.saveInterval > 0 && Inv(e, s) && id in s.peers && d in s.peers[id].diffs
    ensures Inv(e, TakeDiff(cfg, s, id, order, d))
  {
    var roles := Roles(s.peers);
    if roles[id].rights in CAN_UPDATE_DOCUMENT {
      InvParts(e, s);
      GivenOutFits(e, s.past, s.peers[id]);
      var uid := s.peers[id].uid;
      var accepted := Accepts(cfg, s.vault.core, roles[id], d);
      var f := HandleDiff(cfg, s.vault.core, order, roles, id, d);
      var after := Remember(s.past, accepted, d, uid);
      hide Accepts, HandleDiff, PeerOk, AllTruthful, DiffFits, PastOk, CoreOk, Post, ReaderOk, DiffsOk;
      DiffKeepsCore(e, s.past, cfg, s.vault.core, order, roles, id, d, uid);
      forall k | k in s.peers && k in f.mail ensures AllTruthful(after, s.peers[k].uid, f.mail[k]) {
        DiffMailIsTruthful(e, s.past, cfg, s.vault.core, order, roles, id, d, uid, k, s.peers[k].uid);
      }
      if accepted {
        RememberKeepsInv(e, s, id, d, f.core);
      }
      hide Inv;
      var s1 := if accepted then s.(past := after, vault := s.vault.(core := f.core)) else s;
      ServerKeepsInv(e, s1, s.vault.(core := f.core), f.mail);
    }
  }

  lemma TakeCheckKeepsInv<N>(e: Engine<N>, cfg: Config<N>, s: System<N>, id: nat, v: Option<int>, offline: bool)
    requires Inv(e, s) && id in s.peers
    ensures Inv(e, TakeCheck(cfg, s, id, v, offline))
  {
    InvParts(e, s);
    var roles := Roles(s.peers);
    var f := CheckVersion(cfg, s.vault.core, roles, id, v, offline);
    hide PeerOk, AllTruthful, PastOk, CoreOk, Post, Inv, CheckVersion;
    CheckKeepsCore(e, s.past, cfg, s.vault.core, roles, id, v, offline);
    forall k | k in s.peers && k in f.mail ensures AllTruthful(s.past, s.peers[k].uid, f.mail[k]) {
      CheckMailIsTruthful(e, s.past, cfg, s.vault.core, roles, id, v, offline, k, s.peers[k].uid);
    }
    ServerKeepsInv(e, s, s.vault.(core := f.core), f.mail);
  }

  lemma SealedMailIsTruthful<N>(cfg: Config<N>, past: Past<N>, x: Vault<N>, roles: map<nat, Role>, id: nat,
                                m: Snapshot<N>, r: Rekey, allowed: set<int>, k: nat, uid: nat)
    requires id in roles && k in roles
    ensures var mail := HandleSnapshot(cfg, x.core, roles, id, m).mail; k in mail && AllTruthful(past, uid, mail[k])
    ensures var mail := HandleRekey(cfg, x, roles, id, r, allowed).mail; k in mail && AllTruthful(past, uid, mail[k])
  {
    hide SnapshotOk, ValidParams, Save, ReachesTransaction, Rekeyed, Complete, StoreSnapshot;
    assert ReachesTransaction(cfg, x, roles[id], r, allowed) ==> RekeyOk(x.core.doc, r) by {
      ReachingIsOk(cfg, x, roles[id], r, allowed);
    }
    NoticesAreTruthful(past, uid, HandleSnapshot(cfg, x.core, roles, id, m).mail[k]);
    NoticesAreTruthful(past, uid, HandleRekey(cfg, x, roles, id, r, allowed).mail[k]);
  }

  lemma ReachingIsOk<N>(cfg: Config<N>, x: Vault<N>, role: Role, r: Rekey, allowed: set<int>)
    ensures ReachesTransaction(cfg, x, role, r, allowed) ==> RekeyOk(x.core.doc, r)
  {
    hide RekeyOk;
  }

  lemma TakeSnapshotKeepsInv<N>(e: Engine<N>, cfg: Config<N>, s: System<N>, id: nat, m: Snapshot<N>)
    requires Inv(e, s) && id in s.peers && m in s.peers[id].snapshots
    ensures Inv(e, TakeSnapshot(cfg, s, id, m))
  {
    InvParts(e, s);
    GivenOutFits(e, s.past, s.peers[id]);
    var roles := Roles(s.peers);
    var f := HandleSnapshot(cfg, s.vault.core, roles, id, m);
    hide PeerOk, AllTruthful, PastOk, CoreOk, Post, Inv, HandleSnapshot, SnapshotFits, ReaderOk, DiffsOk;
    SnapshotKeepsCore(e, s.past, cfg, s.vault.core, roles, id, m);
    var any := Rekey(None, None, Absent, None, None, None, None, None);
    forall k | k in s.peers && k in f.mail ensures AllTruthful(s.past, s.peers[k].uid, f.mail[k]) {
      SealedMailIsTruthful(cfg, s.past, s.vault, roles, id, m, any, {}, k, s.peers[k].uid);
    }
    ServerKeepsInv(e, s, s.vault.(core := f.core), f.mail);
  }

  lemma TakeRekeyKeepsInv<N>(e: Engine<N>, cfg: Config<N>, s: System<N>, id: nat, r: Rekey, allowed: set<int>)
    requires Inv(e, s) && id in s.peers && r in s.peers[id].rekeys
    ensures Inv(e, TakeRekey(cfg, s, id, r, allowed))
  {
    InvParts(e, s);
    GivenOutFits(e, s.past, s.peers[id]);
    var roles := Roles(s.peers);
    var f := HandleRekey(cfg, s.vault, roles, id, r, allowed);
    hide PeerOk, AllTruthful, PastOk, CoreOk, Post, Inv, HandleRekey, RekeyFits, ReaderOk, DiffsOk;
    RekeyKeepsCore(e, s.past, cfg, s.vault, roles, id, r, allowed);
    var any := Snapshot(None, None, Absent, None, None, None, None);
    forall k | k in s.peers && k in f.mail ensures AllTruthful(s.past, s.peers[k].uid, f.mail[k]) {
      SealedMailIsTruthful(cfg, s.past, s.vault, roles, id, any, r, allowed, k, s.peers[k].uid);
    }
    ServerKeepsInv(e, s, f.vault, f.mail);
  }

  lemma CoreKeepsInv<N>(e: Engine<N>, s: System<N>, core: Core<N>)
    requires Inv(e, s) && CoreOk(e, s.past, core) && s.peers != map[]
    ensures Inv(e, s.(vault := s.vault.(core := core)))
  {
    SameUids(s, s.(vault := s.vault.(core := core)));
    hide PeerOk, PastOk, CoreOk, UidsOk;
  }

  lemma NewPeerIsOk<N>(e: Engine<N>, past: Past<N>, role: Role, uid: nat, reader: Reader<N>)
    requires ReaderOk(e, past, reader) && reader.pending.None? && |past.authors| == |past.history|
    requires forall i :: 0 <= i < |past.authors| ==> past.authors[i] < uid
    ensures PeerOk(e, past, Peer(role, uid, reader, [], [], [], []))
  {
    hide ReaderOk;
  }

  lemma AddPeerKeepsInv<N>(e: Engine<N>, s: System<N>, id: nat, p: Peer<N>, core: Core<N>)
    requires PastOk(e, s.past) && UidsOk(s) && PeersOk(e, s.past, s.peers) && CoreOk(e, s.past, core)
    requires id !in s.peers && p.uid == s.nextUid && PeerOk(e, s.past, p)
    ensures Inv(e, s.(vault := s.vault.(core := core), peers := s.peers[id := p], nextUid := s.nextUid + 1))
  {
    hide PeerOk, PastOk, CoreOk;
    assert id in s.peers[id := p];
  }

  lemma GreetKeepsCore<N>(e: Engine<N>, past: Past<N>, cfg: Config<N>, core: Core<N>, roles: map<nat, Role>, id: nat,
                          connection: int, v: Option<int>)
    requires id in roles && CoreOk(e, past, core)
    ensures CoreOk(e, past, Greet(cfg, core, roles, id, connection, v).core)
  {
    hide CheckVersion, CoreOk;
    CheckKeepsCore(e, past, cfg, core, roles, id, v, false);
  }

  lemma EnteringKeepsInv<N>(e: Engine<N>, s: System<N>, id: nat, role: Role, reader: Reader<N>, core: Core<N>)
    requires Inv(e, s) && id !in s.peers && ReaderOk(e, s.past, reader) && reader.pending.None?
    requires CoreOk(e, s.past, core)
    ensures Inv(e, Entered(s, id, role, reader, core))
  {
    hide ReaderOk, PeerOk, PastOk, CoreOk;
    assert |s.past.authors| == |s.past.history| by { InvParts(e, s); }
    NewPeerIsOk(e, s.past, role, s.nextUid, reader);
    AddPeerKeepsInv(e, s, id, Peer(role, s.nextUid, reader, [], [], [], []), core);
  }

  lemma GreetKeepsInv<N>(e: Engine<N>, cfg: Config<N>, s: System<N>, id: nat, connection: int, v: int)
    requires Inv(e, s) && id in s.peers
    ensures var f := Greet(cfg, s.vault.core, Roles(s.peers), id, connection, Some(v));
      Inv(e, s.(vault := s.vault.(core := f.core), peers := Post(s.peers, f.mail)))
  {
    InvParts(e, s);
    hide Inv, PeerOk, PastOk, CoreOk, AllTruthful, Greet, Post;
    var roles := Roles(s.peers);
    var f := Greet(cfg, s.vault.core, roles, id, connection, Some(v));
    GreetKeepsCore(e, s.past, cfg, s.vault.core, roles, id, connection, Some(v));
    forall k | k in s.peers && k in f.mail ensures AllTruthful(s.past, s.peers[k].uid, f.mail[k]) {
      GreetMailIsTruthful(e, s.past, cfg, s.vault.core, roles, id, connection, Some(v), k, s.peers[k].uid);
    }
    ServerKeepsInv(e, s, s.vault.(core := f.core), f.mail);
  }

  lemma OpenedIsOk<N>(e: Engine<N>, s: System<N>)
    requires Inv(e, s)
    ensures CoreOk(e, s.past, if s.peers == map[] then Open(s.vault.core.row, s.vault.core.images) else s.vault.core)
    ensures DocOk(e, s.past, s.vault.core.row)
  {
    hide DocOk, PastOk, UidsOk, PeersOk, Open;
    if s.peers == map[] {
      OpenKeepsCore(e, s.past, s.vault.core);
    }
  }

  lemma JoinsKeepsInv<N>(e: Engine<N>, cfg: Config<N>, s: System<N>, id: nat, role: Role, connection: int)
    requires Inv(e, s) && id !in s.peers
    ensures var row := s.vault.core.row; Contents(e, row.content, row.salt).Some?
    ensures Inv(e, Joined(e, cfg, s, id, role, connection))
  {
    var row := s.vault.core.row;
    OpenedIsOk(e, s);
    LoadedIsOk(e, s.past, row);
    hide ReaderOk, Inv, Post, Greet, CoreOk, DocOk, Loaded, Contents, Open, Entered;
    var core := if s.peers == map[] then Open(row, s.vault.core.images) else s.vault.core;
    LoadedHasNothingPending(row, Contents(e, row.content, row.salt));
    var reader := Loaded(row, Contents(e, row.content, row.salt).value);
    EnteringKeepsInv(e, s, id, role, reader, core);
    var s1 := Entered(s, id, role, reader, core);
    GreetKeepsInv(e, cfg, s1, id, connection, reader.ver);
    hide Roles;
  }

  lemma LoadedHasNothingPending<N>(row: Doc<N>, contents: Option<N>)
    ensures contents.Some? ==> Loaded(row, contents.value).pending.None?
  {
  }

  lemma RemovedKeepsInv<N>(e: Engine<N>, s: System<N>, id: nat, core: Core<N>)
    requires Inv(e, s) && id in s.peers && CoreOk(e, s.past, core) && core.row.version == core.doc.version
    ensures Inv(e, s.(vault := s.vault.(core := core), peers := s.peers - {id}))
  {
    hide PeerOk, PastOk, CoreOk;
  }

  lemma LastOneLeaves<N>(e: Engine<N>, cfg: Config<N>, s: System<N>, id: nat)
    requires Inv(e, s) && id in s.peers && s.peers - {id} == map[]
    ensures Inv(e, Left(cfg, s, id))
  {
    InvParts(e, s);
    hide PeerOk, PastOk, CoreOk, Save, UidsOk;
    SaveKeepsCore(e, s.past, cfg, s.vault.core, false);
    RemovedKeepsInv(e, s, id, Save(cfg, s.vault.core, false));
    var peers := s.peers - {id};
    assert Post(peers, ParticipantList(Roles(peers))) == peers;
  }

  lemma OthersStay<N>(e: Engine<N>, cfg: Config<N>, s: System<N>, id: nat)
    requires Inv(e, s) && id in s.peers && s.peers - {id} != map[]
    ensures Inv(e, Left(cfg, s, id))
  {
    var peers := s.peers - {id};
    var s1 := s.(peers := peers);
    FewerKeepInv(e, s, id);
    InvParts(e, s1);
    hide Inv, PeerOk, PastOk, CoreOk, Post, MailOk, Roles, ParticipantList;
    var mail := ParticipantList(Roles(peers));
    ListsAreTruthful(s.past, peers);
    ServerKeepsInv(e, s1, s1.vault, mail);
  }

  lemma ListsAreTruthful<N>(past: Past<N>, peers: map<nat, Peer<N>>)
    ensures MailOk(past, peers, ParticipantList(Roles(peers)))
  {
    var mail := ParticipantList(Roles(peers));
    forall k | k in peers && k in mail ensures AllTruthful(past, peers[k].uid, mail[k]) {
      NoticesAreTruthful(past, peers[k].uid, mail[k]);
    }
    hide AllTruthful;
  }

  lemma LeavesKeepsInv<N>(e: Engine<N>, cfg: Config<N>, s: System<N>, id: nat)
    requires Inv(e, s) && id in s.peers
    ensures Inv(e, Left(cfg, s, id))
  {
    hide Inv, Left;
    if s.peers - {id} == map[] {
      LastOneLeaves(e, cfg, s, id);
    } else {
      OthersStay(e, cfg, s, id);
    }
  }

  lemma FewerKeepInv<N>(e: Engine<N>, s: System<N>, id: nat)
    requires Inv(e, s) && id in s.peers && s.peers - {id} != map[]
    ensures Inv(e, s.(peers := s.peers - {id}))
  {
    hide PeerOk, PastOk, CoreOk;
  }

  lemma ReaderKeepsPeer<N>(e: Engine<N>, past: Past<N>, p: Peer<N>, r: Reader<N>)
    requires PeerOk(e, past, p) && ReaderOk(e, past, r) && (r.pending == p.reader.pending || r.pending == None)
    ensures PeerOk(e, past, p.(reader := r))
  {
    hide ReaderOk, Truthful, SnapshotFits, RekeyFits, DiffFits;
  }

  lemma RoleKeepsPeer<N>(e: Engine<N>, past: Past<N>, p: Peer<N>, role: Role)
    requires PeerOk(e, past, p)
    ensures PeerOk(e, past, p.(role := role))
  {
    hide ReaderOk, Truthful, SnapshotFits, RekeyFits, DiffFits;
  }

  lemma HearsKeepsPeer<N>(e: Engine<N>, past: Past<N>, p: Peer<N>, i: nat)
    requires PastOk(e, past) && PeerOk(e, past, p) && i < |p.inbox|
    ensures PeerOk(e, past, p.(reader := Listen(e, p.reader, p.inbox[i])))
  {
    assert Truthful(past, p.uid, p.inbox[i]);
    ListenKeepsReader(e, past, p, p.inbox[i]);
    ReaderKeepsPeer(e, past, p, Listen(e, p.reader, p.inbox[i]));
    hide PastOk, PeerOk, ReaderOk, Listen;
  }

  lemma ReloadsKeepsPeer<N>(e: Engine<N>, past: Past<N>, p: Peer<N>, row: Doc<N>)
    requires PeerOk(e, past, p) && DocOk(e, past, row)
    ensures var contents := Contents(e, row.content, row.salt);
      contents.Some? && PeerOk(e, past, p.(reader := Loaded(row, contents.value)))
  {
    LoadedIsOk(e, past, row);
    ReaderKeepsPeer(e, past, p, Loaded(row, Contents(e, row.content, row.salt).value));
    hide PeerOk, ReaderOk, DocOk;
  }

  /** What a client receives. */
  lemma HearingKeepsInv<N>(e: Engine<N>, cfg: Config<N>, s: System<N>, move: Move<N>)
    requires cfg.saveInterval > 0 && Inv(e, s) && Enabled(e, s, move)
    requires move.Hears? || move.Reloads? || move.RightsChange?
    ensures Inv(e, Moved(e, cfg, s, move))
  {
    var p := s.peers[move.id];
    InvParts(e, s);
    assert DocOk(e, s.past, s.vault.core.row);
    hide Inv, PeerOk, PastOk, CoreOk, DocOk, Listen, Loaded, Contents;
    match move
    case Hears(id, i) =>
      HearsKeepsPeer(e, s.past, p, i);
      ReplaceKeepsInv(e, s, id, p.(reader := Listen(e, p.reader, p.inbox[i])));
    case Reloads(id) =>
      var row := s.vault.core.row;
      ReloadsKeepsPeer(e, s.past, p, row);
      ReplaceKeepsInv(e, s, id, p.(reader := Loaded(row, Contents(e, row.content, row.salt).value)));
    case RightsChange(id, role) =>
      RoleKeepsPeer(e, s.past, p, role);
      ReplaceKeepsInv(e, s, id, p.(role := role));
  }

  /** What a client gives out. */
  lemma SendingKeepsInv<N>(e: Engine<N>, cfg: Config<N>, s: System<N>, move: Move<N>)
    requires cfg.saveInterval > 0 && Inv(e, s) && Enabled(e, s, move)
    requires move.Edits? || move.Seals? || move.Rekeys?
    ensures Inv(e, Moved(e, cfg, s, move))
  {
    var p := s.peers[move.id];
    InvParts(e, s);
    hide Inv, PeerOk, PastOk, CoreOk, Unseal, IsOwnSnapshot, IsOwnRekey;
    match move
    case Edits(id, d) =>
      EditsKeepsPeer(e, s.past, p, d);
      ReplaceKeepsInv(e, s, id, p.(reader := p.reader.(pending := Some(d)), diffs := p.diffs + [d]));
    case Seals(id, m) =>
      SealsKeepsPeer(e, s.past, p, m);
      ReplaceKeepsInv(e, s, id, p.(snapshots := p.snapshots + [m]));
    case Rekeys(id, r) =>
      RekeysKeepsPeer(e, s.past, p, r);
      ReplaceKeepsInv(e, s, id, p.(rekeys := p.rekeys + [r]));
  }

  lemma SavingKeepsInv<N>(e: Engine<N>, cfg: Config<N>, s: System<N>, force: bool)
    requires Inv(e, s) && s.peers != map[]
    ensures Inv(e, s.(vault := s.vault.(core := Save(cfg, s.vault.core, force))))
  {
    InvParts(e, s);
    hide Inv, PeerOk, PastOk, CoreOk, Save;
    SaveKeepsCore(e, s.past, cfg, s.vault.core, force);
    CoreKeepsInv(e, s, Save(cfg, s.vault.core, force));
  }

  /** Every step of the whole system keeps the invariant. */
  lemma MoveKeepsInv<N>(e: Engine<N>, cfg: Config<N>, s: System<N>, move: Move<N>)
    requires cfg.saveInterval > 0 && Inv(e, s) && Enabled(e, s, move)
    ensures Inv(e, Moved(e, cfg, s, move))
  {
    hide Inv, TakeDiff, TakeCheck, TakeSnapshot, TakeRekey, Joined, Left, Save, Listen, Contents, Unseal;
    match move
    case ServerTakesDiff(id, order, d) => TakeDiffKeepsInv(e, cfg, s, id, order, d);
    case ServerTakesCheck(id, v, offline) => TakeCheckKeepsInv(e, cfg, s, id, v, offline);
    case ServerTakesSnapshot(id, m) => TakeSnapshotKeepsInv(e, cfg, s, id, m);
    case ServerTakesRekey(id, r, allowed) => TakeRekeyKeepsInv(e, cfg, s, id, r, allowed);
    case ServerSaves(force) => SavingKeepsInv(e, cfg, s, force);
    case Joins(id, role, connection) => JoinsKeepsInv(e, cfg, s, id, role, connection);
    case Leaves(id) => LeavesKeepsInv(e, cfg, s, id);
    case Edits(_, _) => SendingKeepsInv(e, cfg, s, move);
    case Seals(_, _) => SendingKeepsInv(e, cfg, s, move);
    case Rekeys(_, _) => SendingKeepsInv(e, cfg, s, move);
    case _ => HearingKeepsInv(e, cfg, s, move);
  }

  // ---- Whole runs

  ghost predicate Run<N>(e: Engine<N>, cfg: Config<N>, s: System<N>, moves: seq<Move<N>>)
    requires cfg.saveInterval > 0
    decreases |moves|
  {
    moves == [] || (Enabled(e, s, moves[0]) && Run(e, cfg, Moved(e, cfg, s, moves[0]), moves[1..]))
  }

  ghost function After<N>(e: Engine<N>, cfg: Config<N>, s: System<N>, moves: seq<Move<N>>): System<N>
    requires cfg.saveInterval > 0 && Run(e, cfg, s, moves)
    decreases |moves|
  {
    if moves == [] then s else After(e, cfg, Moved(e, cfg, s, moves[0]), moves[1..])
  }

  /** A stored document nobody is working on, with how it came about. */
  ghost predicate StoredSealed<N>(e: Engine<N>, past: Past<N>, row: Doc<N>) {
    PastOk(e, past) && DocOk(e, past, row) && row.version == past.start + |past.history|
  }

  /** A new encrypted document is one. */
  lemma NewIsStored<N>(e: Engine<N>, row: Doc<N>)
    requires row.e2ee && row.salt.Some? && row.version == 0 && row.diffs == [] && row.snapshotVersion.None?
    requires row.content.Plain?
    ensures StoredSealed(e, Past(row.content.value, 0, [], []), row)
  {
  }

  ghost function Start<N>(past: Past<N>, row: Doc<N>, images: ImageRows, keys: map<int, KeyRow>, firstUid: nat)
    : System<N>
  {
    System(past, Vault(Open(row, images), keys), map[], firstUid)
  }

  lemma StartIsOk<N>(e: Engine<N>, past: Past<N>, row: Doc<N>, images: ImageRows, keys: map<int, KeyRow>, firstUid: nat)
    requires StoredSealed(e, past, row)
    requires forall i :: 0 <= i < |past.authors| ==> past.authors[i] < firstUid
    ensures Inv(e, Start(past, row, images, keys, firstUid))
  {
    hide DocOk;
  }

  lemma {:induction false} RunKeepsInv<N>(e: Engine<N>, cfg: Config<N>, s: System<N>, moves: seq<Move<N>>)
    requires cfg.saveInterval > 0 && Inv(e, s) && Run(e, cfg, s, moves)
    ensures Inv(e, After(e, cfg, s, moves))
    decreases |moves|
  {
    if moves != [] {
      hide Inv, Moved, Enabled;
      MoveKeepsInv(e, cfg, s, moves[0]);
      RunKeepsInv(e, cfg, Moved(e, cfg, s, moves[0]), moves[1..]);
    }
  }

  /** Documents at the same version are the same, what a client has taken with its key are the accepted envelopes of
      that key from there on, in order, and what the server stores opens to the document of the snapshot's version. */
  ghost predicate Converged<N>(e: Engine<N>, s: System<N>) {
    && (forall k :: k in s.peers ==> ReaderOk(e, s.past, s.peers[k].reader))
    && (forall k, j :: k in s.peers && j in s.peers && s.peers[k].reader.ver == s.peers[j].reader.ver ==>
          s.peers[k].reader.node == s.peers[j].reader.node)
    && s.vault.core.doc.version == s.past.start + |s.past.history|
    && (forall doc :: doc in [s.vault.core.doc, s.vault.core.row] ==>
          IsAt(e, s.past, SnapshotAt(doc), Contents(e, doc.content, doc.salt)))
  }

  lemma InvMeansConverged<N>(e: Engine<N>, s: System<N>)
    requires Inv(e, s)
    ensures Converged(e, s)
  {
    InvParts(e, s);
    forall k | k in s.peers ensures ReaderOk(e, s.past, s.peers[k].reader) {
      GivenOutFits(e, s.past, s.peers[k]);
    }
    hide Inv, PeerOk, PastOk, LogOk, Contents, At;
  }

  /** In every run of honest clients, re-keys that fail half way included. */
  lemma EverySealedRunConverges<N>(e: Engine<N>, cfg: Config<N>, past: Past<N>, row: Doc<N>, images: ImageRows,
                                   keys: map<int, KeyRow>, firstUid: nat, moves: seq<Move<N>>)
    requires cfg.saveInterval > 0 && StoredSealed(e, past, row)
    requires forall i :: 0 <= i < |past.authors| ==> past.authors[i] < firstUid
    requires Run(e, cfg, Start(past, row, images, keys, firstUid), moves)
    ensures Converged(e, After(e, cfg, Start(past, row, images, keys, firstUid), moves))
  {
    hide Inv, Run, After, Start, StoredSealed, Converged;
    StartIsOk(e, past, row, images, keys, firstUid);
    RunKeepsInv(e, cfg, Start(past, row, images, keys, firstUid), moves);
    InvMeansConverged(e, After(e, cfg, Start(past, row, images, keys, firstUid), moves));
  }

  // ---- Rejected diffs

  lemma OneInboxGrows<N>(peers: map<nat, Peer<N>>, mail: map<nat, seq<Msg>>, id: nat, msgs: seq<Msg>)
    requires id in peers && Recipients.OnlyTo(Roles(peers), mail, id, msgs)
    ensures var after := Post(peers, mail);
      && after.Keys == peers.Keys && after[id].inbox == peers[id].inbox + msgs
      && forall k :: k in peers && k != id ==> after[k].inbox == peers[k].inbox
  {
  }

  lemma SessionIsSealed<N>(e: Engine<N>, s: System<N>)
    requires Inv(e, s)
    ensures s.vault.core.doc.e2ee && s.vault.core.doc.salt.Some?
  {
    DocIsSealed(e, s.past, s.vault.core.doc);
    hide PastOk, UidsOk, PeersOk;
  }

  lemma NotAcceptedIsForgotten<N>(cfg: Config<N>, s: System<N>, id: nat, order: seq<nat>, d: Diff)
    requires cfg.saveInterval > 0 && id in s.peers && s.peers[id].role.rights in CAN_UPDATE_DOCUMENT
    requires s.vault.core.doc.e2ee && (d.salt != s.vault.core.doc.salt || d.ep.None?)
    requires HandleDiff(cfg, s.vault.core, order, Roles(s.peers), id, d).core == s.vault.core
    ensures TakeDiff(cfg, s, id, order, d)
         == s.(peers := Post(s.peers, HandleDiff(cfg, s.vault.core, order, Roles(s.peers), id, d).mail))
  {
    hide HandleDiff, Discarded, Post;
  }

  /** A client that hears of the rejection no longer waits for the diff. */
  lemma RejectionFrees<N>(e: Engine<N>, r: Reader<N>, rid: string)
    requires r.pending.Some? && r.pending.value.rid == Some(rid)
    ensures Listen(e, r, RejectDiff(rid)) == r.(pending := None)
  {
  }

  /** A diff of another salt, or without an envelope, on the current version changes nothing for the server; its sender
      alone is sent the rejection. */
  lemma WrongSaltIsAnswered<N>(e: Engine<N>, cfg: Config<N>, s: System<N>, id: nat, order: seq<nat>, d: Diff)
    requires cfg.saveInterval > 0 && Inv(e, s) && id in s.peers && d.rid.Some?
    requires s.peers[id].role.rights in CAN_UPDATE_DOCUMENT
    requires d.v == s.vault.core.doc.version && (d.salt != s.vault.core.doc.salt || d.ep.None?)
    requires !Recipients.PassedOver(cfg, s.vault.core.doc, s.peers[id].role, d)
    ensures var t := TakeDiff(cfg, s, id, order, d);
      && t.vault == s.vault && t.past == s.past && t.peers.Keys == s.peers.Keys
      && t.peers[id].inbox == s.peers[id].inbox + [RejectDiff(d.rid.value)]
      && forall k :: k in s.peers && k != id ==> t.peers[k].inbox == s.peers[k].inbox
  {
    SessionIsSealed(e, s);
    Recipients.WrongSaltIsRejected(cfg, s.vault.core, order, Roles(s.peers), id, d);
    NotAcceptedIsForgotten(cfg, s, id, order, d);
    OneInboxGrows(s.peers, HandleDiff(cfg, s.vault.core, order, Roles(s.peers), id, d).mail, id,
                  [RejectDiff(d.rid.value)]);
    hide Inv, HandleDiff, Recipients.PassedOver, TakeDiff, Post, Recipients.OnlyTo;
  }

  // ---- Catching up

  lemma {:induction false} ListenLast<N>(e: Engine<N>, r: Reader<N>, msgs: seq<Msg>, last: Msg)
    ensures ListenAll(e, r, msgs + [last]) == Listen(e, ListenAll(e, r, msgs), last)
    decreases |msgs|
  {
    hide Listen;
    if msgs == [] {
      assert ([] + [last])[1..] == [];
    } else {
      assert (msgs + [last])[0] == msgs[0] && (msgs + [last])[1..] == msgs[1..] + [last];
      ListenLast(e, Listen(e, r, msgs[0]), msgs[1..], last);
    }
  }

  /** The messages are the accepted diffs from version `v` on, one each, all of that salt. */
  ghost predicate Covering<N>(past: Past<N>, v: int, salt: Option<Bytes>, msgs: seq<Msg>) {
    forall i :: 0 <= i < |msgs| ==>
      msgs[i].DiffMsg? && msgs[i].d.v == v + i && msgs[i].d.salt == salt && TruthfulEnvelope(past, msgs[i].d)
  }

  lemma NextIsTaken<N>(e: Engine<N>, past: Past<N>, r: Reader<N>, d: Diff)
    requires PastOk(e, past) && ReaderOk(e, past, r) && TruthfulEnvelope(past, d) && d.v == r.ver && d.salt == r.salt
    ensures TakeEnvelope(e, r, d).ver == r.ver + 1 && TakeEnvelope(e, r, d).salt == r.salt
  {
    AtNext(e, past, r.ver, r.node);
    PrefixIsReplayed(e, past.base, past.history, r.ver + 1 - past.start);
    assert Unseal(e, r.node, d) == Unseal(e, r.node, past.history[r.ver - past.start]);
    hide Unseal, TakenFrom, Replayed;
  }

  lemma {:induction false} PrefixIsReplayed<N>(e: Engine<N>, base: N, ds: seq<Diff>, n: nat)
    requires Replayed(e, base, ds).Some? && n <= |ds|
    ensures Replayed(e, base, ds[..n]).Some?
    decreases |ds|
  {
    if n < |ds| {
      PrefixIsReplayed(e, base, ds[..|ds| - 1], n);
      assert ds[..|ds| - 1][..n] == ds[..n];
    } else {
      assert ds[..n] == ds;
    }
  }

  lemma {:induction false} CoveringIsTaken<N>(e: Engine<N>, past: Past<N>, r: Reader<N>, msgs: seq<Msg>)
    requires PastOk(e, past) && ReaderOk(e, past, r) && Covering(past, r.ver, r.salt, msgs)
    ensures ListenAll(e, r, msgs).ver == r.ver + |msgs|
    decreases |msgs|
  {
    if msgs != [] {
      hide PastOk, ReaderOk, TruthfulEnvelope, TakeEnvelope;
      NextIsTaken(e, past, r, msgs[0].d);
      TakeKeepsReader(e, past, r, msgs[0].d);
      var next := Listen(e, r, msgs[0]);
      forall i | 0 <= i < |msgs[1..]|
        ensures var m := msgs[1..][i];
          m.DiffMsg? && m.d.v == next.ver + i && m.d.salt == next.salt && TruthfulEnvelope(past, m.d)
      {
        assert msgs[1..][i] == msgs[i + 1];
      }
      CoveringIsTaken(e, past, next, msgs[1..]);
    }
  }

  /** Envelopes of another salt are left alone. */
  lemma {:induction false} OtherSaltIsIgnored<N>(e: Engine<N>, past: Past<N>, r: Reader<N>, v: int, salt: Option<Bytes>,
                                                 msgs: seq<Msg>)
    requires Covering(past, v, salt, msgs) && r.salt != salt
    ensures ListenAll(e, r, msgs) == r
    decreases |msgs|
  {
    if msgs != [] {
      hide TruthfulEnvelope;
      assert Listen(e, r, msgs[0]) == r;
      forall i | 0 <= i < |msgs[1..]|
        ensures var m := msgs[1..][i];
          m.DiffMsg? && m.d.v == v + 1 + i && m.d.salt == salt && TruthfulEnvelope(past, m.d)
      {
        assert msgs[1..][i] == msgs[i + 1];
      }
      OtherSaltIsIgnored(e, past, r, v + 1, salt, msgs[1..]);
    }
  }

  lemma AnswerIsCovering<N>(e: Engine<N>, past: Past<N>, cfg: Config<N>, core: Core<N>, roles: map<nat, Role>, id: nat,
                            v: int)
    requires id in roles && CoreOk(e, past, core) && v < core.doc.version <= v + |core.doc.diffs|
    ensures var mail := CheckVersion(cfg, core, roles, id, Some(v), false).mail[id];
      && |mail| == core.doc.version - v + 1 && mail[|mail| - 1] == ConfirmVersion(core.doc.version)
      && Covering(past, v, core.doc.salt, mail[..|mail| - 1])
  {
    DocIsSealed(e, past, core.doc);
    CatchUpIsExact(cfg, core, roles, id, v);
    CheckMailIsTruthful(e, past, cfg, core, roles, id, Some(v), false, id, 0);
    hide CheckVersion, CoreOk, LogOk, TruthfulEnvelope;
  }

  /** What the answer to its question does for a client in any state of the system. */
  lemma AnswerSuffices<N>(e: Engine<N>, past: Past<N>, cfg: Config<N>, core: Core<N>, roles: map<nat, Role>, id: nat,
                          r: Reader<N>)
    requires id in roles && PastOk(e, past) && CoreOk(e, past, core) && ReaderOk(e, past, r)
    ensures ListenAll(e, r, CheckVersion(cfg, core, roles, id, Some(r.ver), false).mail[id]).ver == core.doc.version
       <==> r.ver == core.doc.version || (r.salt == core.doc.salt && r.ver + |core.doc.diffs| >= core.doc.version)
  {
    var mail := CheckVersion(cfg, core, roles, id, Some(r.ver), false).mail[id];
    assert r.ver <= core.doc.version by { hide Replayed, DocOk; }
    if r.ver < core.doc.version <= r.ver + |core.doc.diffs| {
      AnswerIsCovering(e, past, cfg, core, roles, id, r.ver);
      hide CheckVersion, CoreOk, PastOk, ReaderOk, Covering, Listen;
      var diffs := mail[..|mail| - 1];
      assert mail == diffs + [ConfirmVersion(core.doc.version)];
      ListenLast(e, r, diffs, ConfirmVersion(core.doc.version));
      NoticeSparesVersion(e, r, diffs, core.doc.version);
      if r.salt == core.doc.salt {
        CoveringIsTaken(e, past, r, diffs);
      } else {
        OtherSaltIsIgnored(e, past, r, r.ver, core.doc.salt, diffs);
      }
    } else {
      hide Missing, Save, CoreOk, PastOk, ReaderOk, ListenAll;
      assert mail == [if r.ver == core.doc.version then ConfirmVersion(core.doc.version) else Refetch];
      OneNotice(e, r, mail[0]);
    }
  }

  lemma NoticeSparesVersion<N>(e: Engine<N>, r: Reader<N>, msgs: seq<Msg>, v: int)
    ensures Listen(e, ListenAll(e, r, msgs), ConfirmVersion(v)).ver == ListenAll(e, r, msgs).ver
  {
  }

  lemma OneNotice<N>(e: Engine<N>, r: Reader<N>, notice: Msg)
    requires notice.ConfirmVersion? || notice.Refetch?
    ensures ListenAll(e, r, [notice]) == r
  {
    assert [notice][1..] == [];
  }

  /**
   The promise of the view that hands the document out: the client rebuilds it from the last encrypted snapshot, and the
   diffs the server sends for its version do the rest. In every reachable state it is kept exactly when the snapshot is
   of the current version, or of the current salt and within the reach of the log.
   */
  lemma LoadingCatchesUpIff<N>(e: Engine<N>, cfg: Config<N>, past: Past<N>, row: Doc<N>, images: ImageRows,
                               keys: map<int, KeyRow>, firstUid: nat, moves: seq<Move<N>>, id: nat)
    requires cfg.saveInterval > 0 && StoredSealed(e, past, row)
    requires forall i :: 0 <= i < |past.authors| ==> past.authors[i] < firstUid
    requires Run(e, cfg, Start(past, row, images, keys, firstUid), moves)
    requires id in After(e, cfg, Start(past, row, images, keys, firstUid), moves).peers
    ensures var s := After(e, cfg, Start(past, row, images, keys, firstUid), moves);
      var core := s.vault.core;
      var contents := Contents(e, core.row.content, core.row.salt);
      && contents.Some?
      && var r := Loaded(core.row, contents.value);
         var answer := CheckVersion(cfg, core, Roles(s.peers), id, Some(r.ver), false).mail[id];
         ListenAll(e, r, answer).ver == core.doc.version
         <==> || SnapshotAt(core.row) == core.doc.version
              || (core.row.salt == core.doc.salt
                  && SnapshotAt(core.row) + |core.doc.diffs| >= core.doc.version)
  {
    hide Inv, Run, After, Start, StoredSealed;
    var start := Start(past, row, images, keys, firstUid);
    StartIsOk(e, past, row, images, keys, firstUid);
    RunKeepsInv(e, cfg, start, moves);
    var s := After(e, cfg, start, moves);
    InvParts(e, s);
    var core := s.vault.core;
    assert DocOk(e, s.past, core.row);
    LoadedIsOk(e, s.past, core.row);
    hide CoreOk, PastOk, DocOk, PeerOk, ReaderOk, ListenAll, CheckVersion, Contents;
    AnswerSuffices(e, s.past, cfg, core, Roles(s.peers), id,
                   Loaded(core.row, Contents(e, core.row.content, core.row.salt).value));
  }
}
