/**
 The whole system for a readable document: the server, its row, and any number of clients that join, edit, catch up,
 reload, leave and return over links that may lose, repeat and reorder frames.

 One step of a server handler is atomic, a save included, and so are connecting with subscribing and a client's
 reload. A client is the mirror of the server's `receive`.
 */
module Convergence {
  import opened Prelude
  import opened Access
  import opened Comments
  import opened Link
  import opened Documents
  import opened Session
  import opened Replay
  import opened Saving

  /** One connection: the server's end, the frames in flight each way, and the client. `uid` is never reused, `used`
      are the request ids the client has given out. */
  datatype Peer<N> = Peer(role: Role, uid: nat, conn: Conn<Msg>, down: seq<Frame<Msg>>, up: seq<Incoming<Up>>,
                          got: int, client: Client<N>, used: set<string>)

  /** Every accepted diff with the connection it came from, since version `start` with node `base`. */
  datatype Past<N> = Past(base: N, start: int, history: seq<Diff>, authors: seq<nat>)

  /** `order` are the participant ids in the order they joined; clients that have left keep their document. */
  datatype System<N> = System(past: Past<N>, core: Core<N>, order: seq<nat>, peers: map<nat, Peer<N>>,
                              away: seq<Client<N>>, nextUid: nat)

  function Roles<N>(peers: map<nat, Peer<N>>): map<nat, Role> {
    map k | k in peers :: peers[k].role
  }

  function PostTo<N>(p: Peer<N>, msgs: seq<Msg>): Peer<N> {
    p.(conn := SendAll(p.conn, msgs), down := p.down + StampAll(p.conn, msgs))
  }

  function Post<N>(peers: map<nat, Peer<N>>, mail: map<nat, seq<Msg>>): map<nat, Peer<N>> {
    map k | k in peers :: if k in mail then PostTo(peers[k], mail[k]) else peers[k]
  }

  // ---- The server

  ghost function Remember<N>(past: Past<N>, accepted: bool, d: Diff, uid: nat): Past<N> {
    if accepted then past.(history := past.history + [d], authors := past.authors + [uid]) else past
  }

  ghost function TakeDiff<N>(cfg: Config<N>, s: System<N>, id: nat, d: Diff): System<N>
    requires id in s.peers && cfg.saveInterval > 0
  {
    var roles := Roles(s.peers);
    if roles[id].rights !in CAN_UPDATE_DOCUMENT then s
    else
      var e := HandleDiff(cfg, s.core, s.order, roles, id, d);
      s.(core := e.core, peers := Post(s.peers, e.mail),
         past := Remember(s.past, Accepts(cfg, s.core, roles[id], d), d, s.peers[id].uid))
  }

  ghost function TakeCheck<N>(cfg: Config<N>, s: System<N>, id: nat, v: Option<int>, offline: bool): System<N>
    requires id in s.peers
  {
    var e := CheckVersion(cfg, s.core, Roles(s.peers), id, v, offline);
    s.(core := e.core, peers := Post(s.peers, e.mail))
  }

  ghost function Handles<N>(cfg: Config<N>, s: System<N>, id: nat, verdict: Verdict<Up>): System<N>
    requires id in s.peers && cfg.saveInterval > 0
  {
    match verdict
    case Handled(_, UpDiff(d)) => TakeDiff(cfg, s, id, d)
    case Handled(_, UpCheck(v, offline)) => TakeCheck(cfg, s, id, v, offline)
    case Rejected(_, UpDiff(d)) => s.(peers := Post(s.peers, Reject(s.core, Roles(s.peers), id, d).mail))
    case _ => s
  }

  ghost function Received<N>(p: Peer<N>): Peer<N>
    requires p.up != []
  {
    p.(conn := Receive(p.conn, p.up[0], NOTICES), down := p.down + ReceiveFrames(p.conn, p.up[0], NOTICES),
       up := p.up[1..])
  }

  /** `receive`, then the handler or the rejection. */
  ghost function ServerTakes<N>(cfg: Config<N>, s: System<N>, id: nat): System<N>
    requires id in s.peers && s.peers[id].up != [] && cfg.saveInterval > 0
  {
    var p := s.peers[id];
    var s' := s.(core := Resaved(cfg, s.core, p.conn, p.up[0]), peers := s.peers[id := Received(p)]);
    Handles(cfg, s', id, Judge(p.conn, p.up[0]))
  }

  // ---- Joining and leaving

  ghost function Loaded<N>(row: Doc<N>): Client<N>
    requires row.content.Plain?
  {
    Client(row.version, row.content.value, None)
  }

  ghost function Joined<N>(cfg: Config<N>, s: System<N>, role: Role, client: Client<N>, connection: int): System<N>
  {
    var core := if s.peers == map[] then Open(s.core.row, s.core.images) else s.core;
    var id := NewId(s.order);
    var p := PostTo(Peer(role, s.nextUid, Conn(0, 0, []), [], [], 0, client.(pending := None), {}), [Other("welcome")]);
    var peers := s.peers[id := p];
    var e := Greet(cfg, core, Roles(peers), id, connection, Some(client.ver));
    s.(core := e.core, order := s.order + [id], peers := Post(peers, e.mail), nextUid := s.nextUid + 1)
  }

  ghost function Left<N>(cfg: Config<N>, s: System<N>, id: nat): System<N>
    requires id in s.peers
  {
    var peers := s.peers - {id};
    s.(core := if peers == map[] then Save(cfg, s.core, false) else s.core,
       order := Drop(s.order, id),
       peers := Post(peers, ParticipantList(Roles(peers))),
       away := s.away + [s.peers[id].client])
  }

  // ---- The client

  ghost function ClientTakes<N>(cfg: Config<N>, p: Peer<N>): Peer<N>
    requires p.down != []
  {
    var f := p.down[0];
    var q := p.(down := p.down[1..]);
    if f.s == p.got + 1 then q.(got := p.got + 1, client := Hear(cfg, p.client, f.body))
    else if f.s <= p.got then q
    else q.(up := p.up + [ResendRequest(p.got)])
  }

  /** Everything but a diff with a request id may be sent at any time, with any counters; the client's pending diff may
      be sent again. */
  ghost predicate MaySend<N>(p: Peer<N>, msg: Incoming<Up>) {
    msg.Counted? && msg.body.UpDiff? && msg.body.d.rid.Some? ==> p.client.pending == Some(msg.body.d)
  }

  datatype Step<N> =
    | ServerReceives(id: nat)
    | ClientReceives(id: nat)
    | ClientEdits(id: nat, d: Diff, c: int)
    | ClientSends(id: nat, msg: Incoming<Up>)
    | ClientReloads(id: nat)
    | DownScrambled(id: nat, down: seq<Frame<Msg>>)
    | UpScrambled(id: nat, up: seq<Incoming<Up>>)
    | RightsChange(id: nat, rights: Rights)
    | JoinsFresh(role: Role, connection: int)
    | Returns(role: Role, who: nat, connection: int)
    | Leaves(id: nat)
    | ServerSaves(force: bool)

  ghost predicate Enabled<N>(s: System<N>, step: Step<N>) {
    match step
    case ServerReceives(id) => id in s.peers && s.peers[id].up != []
    case ClientReceives(id) => id in s.peers && s.peers[id].down != []
    case ClientEdits(id, d, _) =>
      && id in s.peers && s.peers[id].client.pending.None? && d.v == s.peers[id].client.ver
      && d.rid.Some? && d.rid.value !in s.peers[id].used
    case ClientSends(id, msg) => id in s.peers && MaySend(s.peers[id], msg)
    case ClientReloads(id) => id in s.peers
    case DownScrambled(id, down) => id in s.peers && forall f :: f in down ==> f in s.peers[id].down
    case UpScrambled(id, up) => id in s.peers && forall m :: m in up ==> m in s.peers[id].up
    case RightsChange(id, _) => id in s.peers
    case JoinsFresh(_, _) => true
    case Returns(_, who, _) => who < |s.away|
    case Leaves(id) => id in s.peers
    case ServerSaves(_) => s.peers != map[]
  }

  ghost function Take<N>(cfg: Config<N>, s: System<N>, step: Step<N>): System<N>
    requires cfg.saveInterval > 0 && Enabled(s, step) && s.core.row.content.Plain?
  {
    match step
    case ServerReceives(id) => ServerTakes(cfg, s, id)
    case ClientReceives(id) => s.(peers := s.peers[id := ClientTakes(cfg, s.peers[id])])
    case ClientEdits(id, d, c) =>
      var p := s.peers[id];
      s.(peers := s.peers[id := p.(client := p.client.(pending := Some(d)), used := p.used + {d.rid.value},
                                   up := p.up + [Counted(Some(c), Some(p.got), UpDiff(d))])])
    case ClientSends(id, msg) => s.(peers := s.peers[id := s.peers[id].(up := s.peers[id].up + [msg])])
    case ClientReloads(id) => s.(peers := s.peers[id := s.peers[id].(client := Loaded(s.core.row))])
    case DownScrambled(id, down) => s.(peers := s.peers[id := s.peers[id].(down := down)])
    case UpScrambled(id, up) => s.(peers := s.peers[id := s.peers[id].(up := up)])
    case RightsChange(id, rights) =>
      s.(peers := s.peers[id := s.peers[id].(role := s.peers[id].role.(rights := rights))])
    case JoinsFresh(role, connection) => Joined(cfg, s, role, Loaded(s.core.row), connection)
    case Returns(role, who, connection) => Joined(cfg, s, role, s.away[who], connection)
    case Leaves(id) => Left(cfg, s, id)
    case ServerSaves(force) => s.(core := Save(cfg, s.core, force))
  }

  // ---- The invariant

  ghost predicate Truthful<N>(past: Past<N>, uid: nat, m: Msg) {
    match m
    case DiffMsg(d) => TruthfulDiff(past.start, past.history, d)
    case ConfirmDiff(rid) => Confirmed(past, uid, rid)
    case _ => true
  }

  ghost predicate Confirmed<N>(past: Past<N>, uid: nat, rid: string) {
    |past.authors| == |past.history| &&
    exists i :: 0 <= i < |past.history| && past.authors[i] == uid && past.history[i].rid == Some(rid)
  }

  ghost predicate AllTruthful<N>(past: Past<N>, uid: nat, msgs: seq<Msg>) {
    forall i :: 0 <= i < |msgs| ==> Truthful(past, uid, msgs[i])
  }

  /** A diff with the pending request id is the pending diff; the id of any diff has been given out. */
  ghost predicate KnownDiff<N>(p: Peer<N>, d: Diff) {
    d.rid.Some? ==>
      && d.rid.value in p.used
      && (p.client.pending.Some? && p.client.pending.value.rid == d.rid ==> d == p.client.pending.value)
  }

  ghost predicate KnownUp<N>(p: Peer<N>, msg: Incoming<Up>) {
    msg.Counted? && msg.body.UpDiff? ==> KnownDiff(p, msg.body.d)
  }

  ghost predicate OwnDiffsKnown<N>(past: Past<N>, p: Peer<N>) {
    |past.authors| == |past.history| &&
    forall i :: 0 <= i < |past.history| && past.authors[i] == p.uid ==> KnownDiff(p, past.history[i])
  }

  ghost predicate ClientOk<N>(cfg: Config<N>, past: Past<N>, c: Client<N>) {
    Caught(cfg, past.base, past.start, past.history, c.ver, c.node)
  }

  ghost predicate PeerOk<N>(cfg: Config<N>, past: Past<N>, p: Peer<N>) {
    && ClientOk(cfg, past, p.client)
    && AllTruthful(past, p.uid, p.conn.lastTen)
    && (forall i :: 0 <= i < |p.down| ==> Truthful(past, p.uid, p.down[i].body))
    && (forall i :: 0 <= i < |p.up| ==> KnownUp(p, p.up[i]))
    && (p.client.pending.Some? ==> p.client.pending.value.rid.Some? && KnownDiff(p, p.client.pending.value))
    && OwnDiffsKnown(past, p)
  }

  ghost predicate PastOk<N>(cfg: Config<N>, past: Past<N>) {
    && |past.authors| == |past.history|
    && Fold(cfg, past.base, past.history).Some?
    && forall i :: 0 <= i < |past.history| ==> past.history[i].v == past.start + i
  }

  ghost predicate RowOk<N>(cfg: Config<N>, past: Past<N>, row: Doc<N>) {
    && !row.e2ee && row.content.Plain?
    && Caught(cfg, past.base, past.start, past.history, row.version, row.content.value)
    && row.diffs == Last(past.history[..row.version - past.start], HISTORY_LENGTH)
  }

  ghost predicate ServerOk<N>(cfg: Config<N>, past: Past<N>, core: Core<N>) {
    && PastOk(cfg, past)
    && Faithful(cfg, past.base, past.start, past.history, core)
    && SaveInv(cfg, core)
    && RowOk(cfg, past, core.row)
  }

  ghost predicate UidsOk<N>(s: System<N>) {
    && (forall k :: k in s.peers ==> s.peers[k].uid < s.nextUid)
    && (forall k, j :: k in s.peers && j in s.peers && k != j ==> s.peers[k].uid != s.peers[j].uid)
    && (forall i :: 0 <= i < |s.past.authors| ==> s.past.authors[i] < s.nextUid)
  }

  ghost predicate OrderOk<N>(s: System<N>) {
    forall k :: k in s.peers ==> k in s.order
  }

  ghost predicate Inv<N>(cfg: Config<N>, s: System<N>) {
    && ServerOk(cfg, s.past, s.core)
    && UidsOk(s) && OrderOk(s)
    && (s.peers == map[] ==> s.core.row.version == s.core.doc.version)
    && (forall k :: k in s.peers ==> PeerOk(cfg, s.past, s.peers[k]))
    && (forall i :: 0 <= i < |s.away| ==> ClientOk(cfg, s.past, s.away[i]))
  }

  // ---- The past grows

  lemma TruthfulGrows<N>(past: Past<N>, d: Diff, author: nat, uid: nat, m: Msg)
    requires |past.authors| == |past.history| && Truthful(past, uid, m)
    ensures Truthful(Remember(past, true, d, author), uid, m)
  {
    if m.ConfirmDiff? {
      var past' := Remember(past, true, d, author);
      var i :| 0 <= i < |past.history| && past.authors[i] == uid && past.history[i].rid == Some(m.rid);
      assert past'.authors[i] == uid && past'.history[i].rid == Some(m.rid);
    }
  }

  lemma PeerGrows<N>(cfg: Config<N>, past: Past<N>, p: Peer<N>, d: Diff, author: nat)
    requires PeerOk(cfg, past, p) && (p.uid == author ==> KnownDiff(p, d))
    ensures PeerOk(cfg, Remember(past, true, d, author), p)
  {
    var past' := Remember(past, true, d, author);
    CaughtExtends(cfg, past.base, past.start, past.history, d, p.client.ver, p.client.node);
    forall i | 0 <= i < |p.conn.lastTen| ensures Truthful(past', p.uid, p.conn.lastTen[i]) {
      TruthfulGrows(past, d, author, p.uid, p.conn.lastTen[i]);
    }
    forall i | 0 <= i < |p.down| ensures Truthful(past', p.uid, p.down[i].body) {
      TruthfulGrows(past, d, author, p.uid, p.down[i].body);
    }
    hide Truthful, Fold, Caught, Last, KnownDiff;
  }

  // ---- Posting and receiving

  lemma PostKeepsPeer<N>(cfg: Config<N>, past: Past<N>, p: Peer<N>, msgs: seq<Msg>)
    requires PeerOk(cfg, past, p) && AllTruthful(past, p.uid, msgs)
    ensures PeerOk(cfg, past, PostTo(p, msgs))
  {
    hide Truthful, ClientOk;
    var all := p.conn.lastTen + msgs;
    var q := PostTo(p, msgs);
    assert forall i :: 0 <= i < |all| ==> Truthful(past, p.uid, all[i]);
  }

  lemma ResendIsTruthful<N>(past: Past<N>, uid: nat, k: Conn<Msg>, from: int)
    requires AllTruthful(past, uid, k.lastTen)
    ensures AllTruthful(past, uid, Resend(k, from, Refetch).lastTen)
    ensures var fs := ResendFrames(k, from, Refetch);
      forall i :: 0 <= i < |fs| ==> Truthful(past, uid, fs[i].body)
  {
    hide Confirmed, TruthfulDiff;
    var bodies := ResendBodies(k, from, Refetch);
    assert AllTruthful(past, uid, bodies);
    var all := k.lastTen + bodies;
    assert AllTruthful(past, uid, all);
  }

  lemma ReceiveIsTruthful<N>(past: Past<N>, uid: nat, k: Conn<Msg>, msg: Incoming<Up>)
    requires AllTruthful(past, uid, k.lastTen)
    ensures AllTruthful(past, uid, Receive(k, msg, NOTICES).lastTen)
    ensures var fs := ReceiveFrames(k, msg, NOTICES);
      forall i :: 0 <= i < |fs| ==> Truthful(past, uid, fs[i].body)
  {
    hide Resend, ResendFrames;
    match Judge<Msg, Up>(k, msg)
    case Resent => ResendIsTruthful(past, uid, k, msg.from);
    case Rejected(_, _) => ResendIsTruthful(past, uid, k.(client := k.client + 1), msg.s.value);
    case _ =>
  }

  lemma ReceivedKeepsPeer<N>(cfg: Config<N>, past: Past<N>, p: Peer<N>)
    requires PeerOk(cfg, past, p) && p.up != []
    ensures PeerOk(cfg, past, Received(p))
  {
    hide Truthful, ClientOk, Receive, ReceiveFrames;
    ReceiveIsTruthful(past, p.uid, p.conn, p.up[0]);
    var q := Received(p);
    assert forall i :: 0 <= i < |q.up| ==> q.up[i] == p.up[i + 1];
  }

  ghost predicate MailOk<N>(past: Past<N>, peers: map<nat, Peer<N>>, mail: map<nat, seq<Msg>>) {
    forall k :: k in peers && k in mail ==> AllTruthful(past, peers[k].uid, mail[k])
  }

  ghost predicate PeersOk<N>(cfg: Config<N>, past: Past<N>, peers: map<nat, Peer<N>>) {
    forall k :: k in peers ==> PeerOk(cfg, past, peers[k])
  }

  lemma PostKeepsPeers<N>(cfg: Config<N>, past: Past<N>, peers: map<nat, Peer<N>>, mail: map<nat, seq<Msg>>)
    requires PeersOk(cfg, past, peers) && MailOk(past, peers, mail)
    ensures PeersOk(cfg, past, Post(peers, mail))
  {
    hide PeerOk, AllTruthful, PostTo;
    forall k | k in peers ensures PeerOk(cfg, past, Post(peers, mail)[k]) {
      if k in mail {
        PostKeepsPeer(cfg, past, peers[k], mail[k]);
      }
    }
  }

  // ---- The handlers

  lemma MissingIsTruthful<N>(cfg: Config<N>, past: Past<N>, core: Core<N>, role: Role, from: int, uid: nat)
    requires Faithful(cfg, past.base, past.start, past.history, core)
    requires from < core.doc.version <= from + |core.doc.diffs|
    ensures AllTruthful(past, uid,
              Missing(core.doc.diffs, core.doc.version - from, role, PlainComments(core.doc.comments)))
  {
    MissingIsTheTail(cfg, past.base, past.start, past.history, core, role, from);
    hide Missing, Faithful, TruthfulDiff;
  }

  lemma AcceptedIsTruthful<N>(past: Past<N>, d: Diff, author: nat)
    requires |past.authors| == |past.history| && d.v == past.start + |past.history|
    ensures var past' := Remember(past, true, d, author);
      && TruthfulDiff(past'.start, past'.history, d)
      && (d.rid.Some? ==> Confirmed(past', author, d.rid.value))
  {
    var past' := Remember(past, true, d, author);
    assert past'.authors[|past.history|] == author && past'.history[|past.history|] == d;
  }

  lemma PlainMailIsTruthful<N>(cfg: Config<N>, past: Past<N>, core: Core<N>, roles: map<nat, Role>, id: nat, d: Diff,
                               author: nat, k: nat, uid: nat)
    requires id in roles && k in roles && cfg.saveInterval > 0 && !core.doc.e2ee
    requires |past.authors| == |past.history| && d.v == core.doc.version == past.start + |past.history|
    requires k == id ==> uid == author
    ensures var past' := Remember(past, StepsOf(cfg, core, d).Some?, d, author);
      AllTruthful(past', uid, AcceptPlain(cfg, core, roles, id, d).mail[k])
  {
    hide Save, ApplySidecars, StepsOf, Log, FilterUpdates, TruthfulDiff, Confirmed;
    AcceptedIsTruthful(past, d, author);
    var e := AcceptPlain(cfg, core, roles, id, d);
    if StepsOf(cfg, core, d).Some? && e.mail[k] != [] && k != id {
      var sent := e.mail[k][0].d;
      assert sent.v == d.v && sent.ds == d.ds;
      TruthfulIgnoresTheRest(past.start, Remember(past, true, d, author).history, d, sent);
    }
  }

  lemma TruthfulIgnoresTheRest(start: int, history: seq<Diff>, d: Diff, sent: Diff)
    requires TruthfulDiff(start, history, d) && sent.v == d.v && sent.ds == d.ds
    ensures TruthfulDiff(start, history, sent)
  {
  }

  /** Whatever a diff leads to, every message it sends tells the truth about the history it leaves behind. */
  lemma DiffMailIsTruthful<N>(cfg: Config<N>, past: Past<N>, core: Core<N>, order: seq<nat>, roles: map<nat, Role>,
                              id: nat, d: Diff, author: nat, k: nat, uid: nat)
    requires id in roles && k in roles && cfg.saveInterval > 0
    requires |past.authors| == |past.history|
    requires Faithful(cfg, past.base, past.start, past.history, core)
    requires k == id ==> uid == author
    ensures var e := HandleDiff(cfg, core, order, roles, id, d);
      k in e.mail && AllTruthful(Remember(past, Accepts(cfg, core, roles[id], d), d, author), uid, e.mail[k])
  {
    hide AcceptPlain, AcceptEncrypted, Missing, Discarded, Save, StepsOf, Fold, Last;
    AcceptPlainMailKeys(cfg, core, roles, id, d);
    if !Discarded(cfg, core, roles[id], d) {
      if d.v == core.doc.version {
        PlainMailIsTruthful(cfg, past, core, roles, id, d, author, k, uid);
      } else if d.v < core.doc.version && d.v + |core.doc.diffs| >= core.doc.version {
        MissingIsTruthful(cfg, past, core, roles[id], d.v, uid);
      }
    }
  }

  lemma AcceptPlainMailKeys<N>(cfg: Config<N>, core: Core<N>, roles: map<nat, Role>, id: nat, d: Diff)
    requires id in roles && cfg.saveInterval > 0
    ensures AcceptPlain(cfg, core, roles, id, d).mail.Keys == roles.Keys
  {
    hide Save, ApplySidecars, StepsOf, Log, FilterUpdates;
  }

  lemma CheckMailIsTruthful<N>(cfg: Config<N>, past: Past<N>, core: Core<N>, roles: map<nat, Role>, id: nat,
                               v: Option<int>, offline: bool, k: nat, uid: nat)
    requires id in roles && k in roles
    requires Faithful(cfg, past.base, past.start, past.history, core)
    ensures var mail := CheckVersion(cfg, core, roles, id, v, offline).mail;
      k in mail && AllTruthful(past, uid, mail[k])
  {
    hide Missing, Save, Fold, Last, TruthfulDiff, Confirmed;
    if v.Some? && v.value < core.doc.version && !offline && v.value + |core.doc.diffs| >= core.doc.version {
      MissingIsTruthful(cfg, past, core, roles[id], v.value, uid);
    }
  }

  lemma GreetMailIsTruthful<N>(cfg: Config<N>, past: Past<N>, core: Core<N>, roles: map<nat, Role>, id: nat,
                               connection: int, v: Option<int>, k: nat, uid: nat)
    requires id in roles && k in roles
    requires Faithful(cfg, past.base, past.start, past.history, core)
    ensures AllTruthful(past, uid, Greet(cfg, core, roles, id, connection, v).mail[k])
  {
    hide CheckVersion, Faithful, AllTruthful;
    CheckMailIsTruthful(cfg, past, core, roles, id, v, false, k, uid);
    NoticesAreTruthful(past, uid, [Subscribed, SessionInfo(id, roles[id].rights)]);
    NoticesAreTruthful(past, uid, [Subscribed, AccessRight(roles[id].rights)]);
    NoticesAreTruthful(past, uid, [Connections]);
    NoticesAreTruthful(past, uid, []);
    var greeting := if k != id then [] else if connection < 1 then [Subscribed, SessionInfo(id, roles[id].rights)]
                    else [Subscribed, AccessRight(roles[id].rights)];
    var checked := CheckVersion(cfg, core, roles, id, v, false).mail[k];
    var announced := if roles[id].rights in CAN_COMMUNICATE then ParticipantList(roles)[k] else [];
    ConcatIsTruthful(past, uid, greeting, checked);
    ConcatIsTruthful(past, uid, greeting + checked, announced);
    ConcatIsTruthful(past, uid, greeting, announced);
  }

  lemma NoticesAreTruthful<N>(past: Past<N>, uid: nat, msgs: seq<Msg>)
    requires forall i :: 0 <= i < |msgs| ==> !msgs[i].DiffMsg? && !msgs[i].ConfirmDiff?
    ensures AllTruthful(past, uid, msgs)
  {
  }

  lemma ConcatIsTruthful<N>(past: Past<N>, uid: nat, a: seq<Msg>, b: seq<Msg>)
    requires AllTruthful(past, uid, a) && AllTruthful(past, uid, b)
    ensures AllTruthful(past, uid, a + b)
  {
    hide Truthful;
  }

  // ---- The server's own state

  lemma RowGrows<N>(cfg: Config<N>, past: Past<N>, row: Doc<N>, d: Diff, author: nat)
    requires RowOk(cfg, past, row)
    ensures RowOk(cfg, Remember(past, true, d, author), row)
  {
    CaughtExtends(cfg, past.base, past.start, past.history, d, row.version, row.content.value);
    assert (past.history + [d])[..row.version - past.start] == past.history[..row.version - past.start];
  }

  lemma LiveRowIsOk<N>(cfg: Config<N>, past: Past<N>, core: Core<N>)
    requires Faithful(cfg, past.base, past.start, past.history, core) && RowIsLive(core) && !core.row.e2ee
    ensures RowOk(cfg, past, core.row)
  {
    assert past.history[..|past.history|] == past.history;
  }

  lemma SaveRow<N>(cfg: Config<N>, core: Core<N>, force: bool)
    requires Sound(cfg, core) && !core.doc.e2ee
    ensures var c := Save(cfg, core, force);
      && c.row.e2ee == core.row.e2ee
      && (c.row == core.row || RowIsLive(c))
      && c.doc.e2ee == core.doc.e2ee
  {
  }

  /** After a diff the row is what it was, but for a new title, or it has just been written. */
  lemma DiffRow<N>(cfg: Config<N>, core: Core<N>, order: seq<nat>, roles: map<nat, Role>, id: nat, d: Diff)
    requires id in roles && cfg.saveInterval > 0 && !core.doc.e2ee && Sound(cfg, core)
    ensures var c := HandleDiff(cfg, core, order, roles, id, d).core;
      && c.row.e2ee == core.row.e2ee
      && (c.row == core.row.(title := c.row.title) || RowIsLive(c))
  {
    hide Sound, Save, RowIsLive, ApplySidecars, StepsOf, Missing, Discarded, FilterUpdates;
    SaveRow(cfg, core, false);
    if StepsOf(cfg, core, d).Some? {
      var stepped := StepsOf(cfg, core, d).value;
      LogKeepsSound(cfg, core, stepped, d);
      StepsKeepRow(cfg, core, d);
      var logged := Log(stepped, d);
      SidecarsLeaveTheRest(logged, d, roles[id]);
      SidecarsKeepSound(cfg, logged, d, roles[id]);
      SaveRow(cfg, ApplySidecars(logged, d, roles[id]).0, false);
    }
  }

  lemma StepsKeepRow<N>(cfg: Config<N>, core: Core<N>, d: Diff)
    requires StepsOf(cfg, core, d).Some?
    ensures StepsOf(cfg, core, d).value.row == core.row && StepsOf(cfg, core, d).value.doc == core.doc
  {
  }

  lemma DiffKeepsServer<N>(cfg: Config<N>, past: Past<N>, core: Core<N>, order: seq<nat>, roles: map<nat, Role>,
                           id: nat, d: Diff, author: nat)
    requires id in roles && cfg.saveInterval > 0
    requires ServerOk(cfg, past, core)
    ensures ServerOk(cfg, Remember(past, Accepts(cfg, core, roles[id], d), d, author),
                     HandleDiff(cfg, core, order, roles, id, d).core)
  {
    var accepted := Accepts(cfg, core, roles[id], d);
    var past' := Remember(past, accepted, d, author);
    var c := HandleDiff(cfg, core, order, roles, id, d).core;
    hide HandleDiff, Accepts, Sound, RowIsLive, Last;
    SaveInvUnfolds(cfg, core);
    DiffKeepsFaithful(cfg, past.base, past.start, past.history, core, order, roles, id, d);
    DiffKeepsSound(cfg, core, order, roles, id, d);
    DiffRow(cfg, core, order, roles, id, d);
    if accepted {
      RowGrows(cfg, past, core.row, d, author);
    }
    if RowIsLive(c) {
      LiveRowIsOk(cfg, past', c);
    }
  }

  lemma SaveInvUnfolds<N>(cfg: Config<N>, core: Core<N>)
    requires SaveInv(cfg, core)
    ensures Sound(cfg, core)
  {
  }

  lemma SaveKeepsServer<N>(cfg: Config<N>, past: Past<N>, core: Core<N>, force: bool)
    requires ServerOk(cfg, past, core)
    ensures ServerOk(cfg, past, Save(cfg, core, force))
    ensures Save(cfg, core, force).row.version == core.doc.version == Save(cfg, core, force).doc.version
  {
    SaveLeavesTheDocument(cfg, core, force);
    SaveRefinesWritingEverything(cfg, core, force);
    SaveRow(cfg, core, force);
    hide Save, Fold, Last, Sound;
    LiveRowIsOk(cfg, past, Save(cfg, core, force));
  }

  lemma CheckKeepsServer<N>(cfg: Config<N>, past: Past<N>, core: Core<N>, roles: map<nat, Role>, id: nat,
                            v: Option<int>, offline: bool)
    requires id in roles && ServerOk(cfg, past, core)
    ensures ServerOk(cfg, past, CheckVersion(cfg, core, roles, id, v, offline).core)
  {
    hide Save, Missing, ServerOk;
    SaveKeepsServer(cfg, past, core, false);
  }

  lemma OpenKeepsServer<N>(cfg: Config<N>, past: Past<N>, core: Core<N>)
    requires ServerOk(cfg, past, core) && core.row.version == core.doc.version
    ensures ServerOk(cfg, past, Open(core.row, core.images))
  {
    OpenIsSaved(cfg, core.row, core.images);
    assert past.history[..|past.history|] == past.history;
  }

  // ---- The steps

  /** Replacing one participant's connection by another good one with the same `uid` changes nothing else. */
  lemma ReplaceKeepsInv<N>(cfg: Config<N>, s: System<N>, id: nat, q: Peer<N>)
    requires Inv(cfg, s) && id in s.peers
    requires q.uid == s.peers[id].uid && PeerOk(cfg, s.past, q)
    ensures Inv(cfg, s.(peers := s.peers[id := q]))
  {
    hide PeerOk, ServerOk, ClientOk;
    var peers := s.peers[id := q];
    assert id in peers;
  }

  lemma PostKeepsInv<N>(cfg: Config<N>, s: System<N>, mail: map<nat, seq<Msg>>)
    requires Inv(cfg, s) && MailOk(s.past, s.peers, mail)
    ensures Inv(cfg, s.(peers := Post(s.peers, mail)))
  {
    PostKeepsPeers(cfg, s.past, s.peers, mail);
    PostKeepsUids(s.peers, mail);
    hide PeerOk, ServerOk, ClientOk, Post, AllTruthful;
  }

  lemma PostKeepsUids<N>(peers: map<nat, Peer<N>>, mail: map<nat, seq<Msg>>)
    ensures Post(peers, mail).Keys == peers.Keys
    ensures forall k :: k in peers ==> Post(peers, mail)[k].uid == peers[k].uid
  {
  }

  /** The history grows by a diff that its author has given out. */
  lemma RememberKeepsInv<N>(cfg: Config<N>, s: System<N>, id: nat, d: Diff, core: Core<N>)
    requires Inv(cfg, s) && id in s.peers && KnownDiff(s.peers[id], d)
    requires ServerOk(cfg, Remember(s.past, true, d, s.peers[id].uid), core)
    ensures Inv(cfg, s.(past := Remember(s.past, true, d, s.peers[id].uid), core := core))
  {
    var uid := s.peers[id].uid;
    var past' := Remember(s.past, true, d, uid);
    forall k | k in s.peers ensures PeerOk(cfg, past', s.peers[k]) {
      PeerGrows(cfg, s.past, s.peers[k], d, uid);
    }
    forall i | 0 <= i < |s.away| ensures ClientOk(cfg, past', s.away[i]) {
      CaughtExtends(cfg, s.past.base, s.past.start, s.past.history, d, s.away[i].ver, s.away[i].node);
    }
    hide PeerOk, ServerOk, ClientOk, KnownDiff;
  }

  lemma CoreKeepsInv<N>(cfg: Config<N>, s: System<N>, core: Core<N>)
    requires Inv(cfg, s) && ServerOk(cfg, s.past, core)
    requires s.peers == map[] ==> core.row.version == core.doc.version
    ensures Inv(cfg, s.(core := core))
  {
    hide PeerOk, ServerOk, ClientOk;
  }

  lemma TakeDiffKeepsInv<N>(cfg: Config<N>, s: System<N>, id: nat, d: Diff)
    requires Inv(cfg, s) && id in s.peers && cfg.saveInterval > 0 && KnownDiff(s.peers[id], d)
    ensures Inv(cfg, TakeDiff(cfg, s, id, d))
  {
    var roles := Roles(s.peers);
    if roles[id].rights in CAN_UPDATE_DOCUMENT {
      var uid := s.peers[id].uid;
      var accepted := Accepts(cfg, s.core, roles[id], d);
      var e := HandleDiff(cfg, s.core, s.order, roles, id, d);
      var past' := Remember(s.past, accepted, d, uid);
      hide Accepts, HandleDiff, PeerOk, AllTruthful, KnownDiff, Post;
      DiffKeepsServer(cfg, s.past, s.core, s.order, roles, id, d, uid);
      var s1 := s.(core := e.core, past := past');
      if accepted {
        RememberKeepsInv(cfg, s, id, d, e.core);
      } else {
        CoreKeepsInv(cfg, s, e.core);
      }
      forall k | k in s.peers && k in e.mail ensures AllTruthful(past', s.peers[k].uid, e.mail[k]) {
        DiffMailIsTruthful(cfg, s.past, s.core, s.order, roles, id, d, uid, k, s.peers[k].uid);
      }
      hide Inv;
      PostKeepsInv(cfg, s1, e.mail);
    }
  }

  lemma TakeCheckKeepsInv<N>(cfg: Config<N>, s: System<N>, id: nat, v: Option<int>, offline: bool)
    requires Inv(cfg, s) && id in s.peers
    ensures Inv(cfg, TakeCheck(cfg, s, id, v, offline))
  {
    var roles := Roles(s.peers);
    var e := CheckVersion(cfg, s.core, roles, id, v, offline);
    hide CheckVersion, PeerOk, AllTruthful, Post;
    CheckKeepsServer(cfg, s.past, s.core, roles, id, v, offline);
    CoreKeepsInv(cfg, s, e.core);
    forall k | k in s.peers && k in e.mail ensures AllTruthful(s.past, s.peers[k].uid, e.mail[k]) {
      CheckMailIsTruthful(cfg, s.past, s.core, roles, id, v, offline, k, s.peers[k].uid);
    }
    hide Inv;
    PostKeepsInv(cfg, s.(core := e.core), e.mail);
  }

  lemma RejectMailIsTruthful<N>(s: System<N>, core: Core<N>, id: nat, d: Diff)
    ensures MailOk(s.past, s.peers, Reject(core, Roles(s.peers), id, d).mail)
  {
  }

  lemma ServerSavesKeepsInv<N>(cfg: Config<N>, s: System<N>, force: bool)
    requires Inv(cfg, s)
    ensures Inv(cfg, s.(core := Save(cfg, s.core, force)))
  {
    SaveKeepsServer(cfg, s.past, s.core, force);
    CoreKeepsInv(cfg, s, Save(cfg, s.core, force));
  }

  lemma PostNothing<N>(peers: map<nat, Peer<N>>)
    requires forall k :: k in peers ==> |peers[k].conn.lastTen| <= RING_SIZE
    ensures Post(peers, Nothing(Roles(peers))) == peers
  {
    forall k | k in peers ensures PostTo(peers[k], []) == peers[k] {
      SendNone(peers[k].conn);
    }
    hide PostTo;
  }

  /** What the server does with a frame is exactly `Dispatch`, which the consumer object is proved to implement. */
  lemma HandlesIsDispatch<N>(cfg: Config<N>, s: System<N>, id: nat, verdict: Verdict<Up>)
    requires id in s.peers && cfg.saveInterval > 0
    requires forall k :: k in s.peers ==> |s.peers[k].conn.lastTen| <= RING_SIZE
    ensures var e := Dispatch(cfg, s.core, s.order, Roles(s.peers), id, verdict);
      var t := Handles(cfg, s, id, verdict);
      t.core == e.core && t.peers == Post(s.peers, e.mail) && t.order == s.order
  {
    hide HandleDiff, CheckVersion, Post, Reject, Nothing, Accepts;
    PostNothing(s.peers);
    RejectKeepsCore(s.core, Roles(s.peers), id, verdict);
  }

  lemma RejectKeepsCore<N>(core: Core<N>, roles: map<nat, Role>, id: nat, verdict: Verdict<Up>)
    ensures verdict.Rejected? && verdict.body.UpDiff? ==> Reject(core, roles, id, verdict.body.d).core == core
  {
  }

  lemma ResavedKeepsInv<N>(cfg: Config<N>, s: System<N>, k: Conn<Msg>, msg: Incoming<Up>)
    requires Inv(cfg, s)
    ensures Inv(cfg, s.(core := Resaved(cfg, s.core, k, msg)))
  {
    hide Overflows;
    if Overflows(k, msg) {
      ServerSavesKeepsInv(cfg, s, false);
    }
  }

  lemma HandledIsKnown<N>(cfg: Config<N>, past: Past<N>, p: Peer<N>)
    requires PeerOk(cfg, past, p) && p.up != []
    ensures var verdict := Judge(p.conn, p.up[0]);
      verdict.Handled? && verdict.body.UpDiff? ==> KnownDiff(Received(p), verdict.body.d)
  {
    assert KnownUp(p, p.up[0]);
    hide Receive, ReceiveFrames;
  }

  lemma PeerIsOk<N>(cfg: Config<N>, s: System<N>, id: nat)
    requires Inv(cfg, s) && id in s.peers
    ensures PeerOk(cfg, s.past, s.peers[id])
  {
  }

  lemma ServerTakesKeepsInv<N>(cfg: Config<N>, s: System<N>, id: nat)
    requires Inv(cfg, s) && id in s.peers && s.peers[id].up != [] && cfg.saveInterval > 0
    ensures Inv(cfg, ServerTakes(cfg, s, id))
  {
    hide Inv, PeerOk, Resaved, Handles, Judge, KnownDiff;
    var p := s.peers[id];
    PeerIsOk(cfg, s, id);
    HandledIsKnown(cfg, s.past, p);
    ReceivedKeepsPeer(cfg, s.past, p);
    ReplaceKeepsInv(cfg, s, id, Received(p));
    var s1 := s.(peers := s.peers[id := Received(p)]);
    ResavedKeepsInv(cfg, s1, p.conn, p.up[0]);
    HandlesKeepsInv(cfg, s1.(core := Resaved(cfg, s.core, p.conn, p.up[0])), id, Judge(p.conn, p.up[0]));
  }

  lemma HandlesKeepsInv<N>(cfg: Config<N>, s: System<N>, id: nat, verdict: Verdict<Up>)
    requires Inv(cfg, s) && id in s.peers && cfg.saveInterval > 0
    requires verdict.Handled? && verdict.body.UpDiff? ==> KnownDiff(s.peers[id], verdict.body.d)
    ensures Inv(cfg, Handles(cfg, s, id, verdict))
  {
    hide Inv, TakeDiff, TakeCheck, Post, Reject, KnownDiff;
    match verdict
    case Handled(_, UpDiff(d)) => TakeDiffKeepsInv(cfg, s, id, d);
    case Handled(_, UpCheck(v, offline)) => TakeCheckKeepsInv(cfg, s, id, v, offline);
    case Rejected(_, UpDiff(d)) =>
      RejectMailIsTruthful(s, s.core, id, d);
      PostKeepsInv(cfg, s, Reject(s.core, Roles(s.peers), id, d).mail);
    case _ =>
  }

  lemma PendingIsTruthful<N>(past: Past<N>, p: Peer<N>, rid: string)
    requires |past.authors| == |past.history|
    requires forall i :: 0 <= i < |past.history| ==> past.history[i].v == past.start + i
    requires OwnDiffsKnown(past, p) && Confirmed(past, p.uid, rid)
    requires p.client.pending.Some? && p.client.pending.value.rid == Some(rid)
    ensures TruthfulDiff(past.start, past.history, p.client.pending.value)
  {
    var i :| 0 <= i < |past.history| && past.authors[i] == p.uid && past.history[i].rid == Some(rid);
    assert KnownDiff(p, past.history[i]);
  }

  /** A truthful message, confirmation or diff, leaves the client on the server's path. */
  lemma HearKeepsCaught<N>(cfg: Config<N>, past: Past<N>, p: Peer<N>, m: Msg)
    requires PastOk(cfg, past) && ClientOk(cfg, past, p.client) && OwnDiffsKnown(past, p)
    requires Truthful(past, p.uid, m)
    ensures ClientOk(cfg, past, Hear(cfg, p.client, m))
    ensures Hear(cfg, p.client, m).pending == p.client.pending || Hear(cfg, p.client, m).pending == None
  {
    hide Fold, Absorb, Confirmed;
    match m
    case DiffMsg(d) => AbsorbKeepsCaught(cfg, past.base, past.start, past.history, p.client, d);
    case ConfirmDiff(rid) =>
      if p.client.pending.Some? && p.client.pending.value.rid == Some(rid) {
        PendingIsTruthful(past, p, rid);
        AbsorbKeepsCaught(cfg, past.base, past.start, past.history, p.client, p.client.pending.value);
      }
    case _ =>
  }

  lemma ClientTakesKeepsPeer<N>(cfg: Config<N>, past: Past<N>, p: Peer<N>)
    requires PastOk(cfg, past) && PeerOk(cfg, past, p) && p.down != []
    ensures PeerOk(cfg, past, ClientTakes(cfg, p)) && ClientTakes(cfg, p).uid == p.uid
  {
    HearKeepsCaught(cfg, past, p, p.down[0].body);
    hide Hear, ClientOk, PastOk, Truthful;
  }

  lemma ClientEditsKeepsPeer<N>(cfg: Config<N>, past: Past<N>, p: Peer<N>, d: Diff, q: Peer<N>)
    requires PeerOk(cfg, past, p) && p.client.pending.None? && d.rid.Some? && d.rid.value !in p.used
    requires exists msg :: q == p.(client := p.client.(pending := Some(d)), used := p.used + {d.rid.value},
                                   up := p.up + [msg]) && KnownUp(q, msg)
    ensures PeerOk(cfg, past, q)
  {
    hide Truthful, Caught;
    assert forall i :: 0 <= i < |p.up| ==> KnownUp(p, p.up[i]) && KnownUp(q, p.up[i]);
  }

  lemma NewPeerOk<N>(cfg: Config<N>, past: Past<N>, role: Role, uid: nat, client: Client<N>)
    requires ClientOk(cfg, past, client) && |past.authors| == |past.history|
    requires forall i :: 0 <= i < |past.authors| ==> past.authors[i] < uid
    ensures PeerOk(cfg, past, PostTo(Peer(role, uid, Conn(0, 0, []), [], [], 0, client.(pending := None), {}),
                                     [Other("welcome")]))
  {
    hide Caught;
    var p := Peer(role, uid, Conn(0, 0, []), [], [], 0, client.(pending := None), {});
    PostKeepsPeer(cfg, past, p, [Other("welcome")]);
  }

  lemma AddPeerKeepsInv<N>(cfg: Config<N>, s: System<N>, core: Core<N>, id: nat, p: Peer<N>)
    requires Inv(cfg, s) && id !in s.peers && p.uid == s.nextUid
    requires ServerOk(cfg, s.past, core) && PeerOk(cfg, s.past, p)
    ensures Inv(cfg, s.(core := core, order := s.order + [id], peers := s.peers[id := p], nextUid := s.nextUid + 1))
  {
    hide PeerOk, ServerOk, ClientOk;
    var peers := s.peers[id := p];
    assert id in peers;
  }

  lemma JoinedKeepsInv<N>(cfg: Config<N>, s: System<N>, role: Role, client: Client<N>, connection: int)
    requires Inv(cfg, s) && ClientOk(cfg, s.past, client)
    ensures Inv(cfg, Joined(cfg, s, role, client, connection))
  {
    var core := if s.peers == map[] then Open(s.core.row, s.core.images) else s.core;
    var id := NewId(s.order);
    NewIdIsFresh(s.order);
    if s.peers == map[] {
      OpenKeepsServer(cfg, s.past, s.core);
    }
    var p := PostTo(Peer(role, s.nextUid, Conn(0, 0, []), [], [], 0, client.(pending := None), {}), [Other("welcome")]);
    assert PeerOk(cfg, s.past, p) && id !in s.peers by {
      NewPeerOk(cfg, s.past, role, s.nextUid, client);
    }
    hide Open, PeerOk, PostTo, ClientOk, NewId, ServerOk, Greet, Post;
    AddPeerKeepsInv(cfg, s, core, id, p);
    var s1 := s.(core := core, order := s.order + [id], peers := s.peers[id := p], nextUid := s.nextUid + 1);
    GreetKeepsInv(cfg, s1, id, connection, Some(client.ver));
  }

  lemma GreetKeepsInv<N>(cfg: Config<N>, s: System<N>, id: nat, connection: int, v: Option<int>)
    requires Inv(cfg, s) && id in s.peers
    ensures var e := Greet(cfg, s.core, Roles(s.peers), id, connection, v);
      Inv(cfg, s.(core := e.core, peers := Post(s.peers, e.mail)))
  {
    var roles := Roles(s.peers);
    var e := Greet(cfg, s.core, roles, id, connection, v);
    GreetKeepsServer(cfg, s.past, s.core, roles, id, connection, v);
    forall k | k in s.peers && k in e.mail ensures AllTruthful(s.past, s.peers[k].uid, e.mail[k]) {
      GreetMailIsTruthful(cfg, s.past, s.core, roles, id, connection, v, k, s.peers[k].uid);
    }
    hide PeerOk, AllTruthful, Post, ClientOk, Greet, ServerOk;
    CoreKeepsInv(cfg, s, e.core);
    hide Inv;
    PostKeepsInv(cfg, s.(core := e.core), e.mail);
  }

  lemma GreetKeepsServer<N>(cfg: Config<N>, past: Past<N>, core: Core<N>, roles: map<nat, Role>, id: nat,
                            connection: int, v: Option<int>)
    requires id in roles && ServerOk(cfg, past, core)
    ensures ServerOk(cfg, past, Greet(cfg, core, roles, id, connection, v).core)
  {
    hide CheckVersion, ServerOk;
    CheckKeepsServer(cfg, past, core, roles, id, v, false);
  }

  lemma RemovePeerKeepsInv<N>(cfg: Config<N>, s: System<N>, id: nat, core: Core<N>)
    requires Inv(cfg, s) && id in s.peers && ServerOk(cfg, s.past, core)
    requires s.peers - {id} == map[] ==> core.row.version == core.doc.version
    ensures Inv(cfg, s.(core := core, order := Drop(s.order, id), peers := s.peers - {id},
                        away := s.away + [s.peers[id].client]))
  {
    assert PeerOk(cfg, s.past, s.peers[id]);
    hide PeerOk, ServerOk;
    var peers := s.peers - {id};
    forall k | k in peers ensures k in Drop(s.order, id) {
      DropKeepsOthers(s.order, id, k);
    }
    assert ClientOk(cfg, s.past, s.peers[id].client) by {
      PeerClientOk(cfg, s.past, s.peers[id]);
    }
    hide ClientOk, Drop;
  }

  lemma PeerClientOk<N>(cfg: Config<N>, past: Past<N>, p: Peer<N>)
    requires PeerOk(cfg, past, p)
    ensures ClientOk(cfg, past, p.client)
  {
  }

  lemma LeftKeepsInv<N>(cfg: Config<N>, s: System<N>, id: nat)
    requires Inv(cfg, s) && id in s.peers
    ensures Inv(cfg, Left(cfg, s, id))
  {
    hide ServerOk, PeerOk, Save, Post;
    var peers := s.peers - {id};
    var core := if peers == map[] then Save(cfg, s.core, false) else s.core;
    SaveKeepsServer(cfg, s.past, s.core, false);
    RemovePeerKeepsInv(cfg, s, id, core);
    var s1 := s.(core := core, order := Drop(s.order, id), peers := peers, away := s.away + [s.peers[id].client]);
    hide Inv;
    assert MailOk(s.past, peers, ParticipantList(Roles(peers)));
    PostKeepsInv(cfg, s1, ParticipantList(Roles(peers)));
  }

  lemma LoadedIsOk<N>(cfg: Config<N>, past: Past<N>, core: Core<N>)
    requires ServerOk(cfg, past, core)
    ensures core.row.content.Plain? && ClientOk(cfg, past, Loaded(core.row))
  {
  }

  lemma SmallPeerSteps<N>(cfg: Config<N>, past: Past<N>, p: Peer<N>, step: Step<N>, q: Peer<N>)
    requires PeerOk(cfg, past, p)
    requires match step
      case ClientSends(_, msg) => MaySend(p, msg) && q == p.(up := p.up + [msg])
      case ClientReloads(_) => q == p.(client := q.client) && q.client.pending.None? && ClientOk(cfg, past, q.client)
      case DownScrambled(_, down) => q == p.(down := down) && forall f :: f in down ==> f in p.down
      case UpScrambled(_, up) => q == p.(up := up) && forall m :: m in up ==> m in p.up
      case RightsChange(_, rights) => q == p.(role := p.role.(rights := rights))
      case _ => false
    ensures PeerOk(cfg, past, q)
  {
    hide Truthful, Caught;
    match step
    case DownScrambled(_, down) =>
      forall i | 0 <= i < |down| ensures Truthful(past, q.uid, down[i].body) {
        assert down[i] in p.down;
      }
    case UpScrambled(_, up) =>
      forall i | 0 <= i < |up| ensures KnownUp(q, up[i]) {
        assert up[i] in p.up;
      }
    case _ =>
  }

  lemma ClientReceivesKeepsInv<N>(cfg: Config<N>, s: System<N>, id: nat)
    requires Inv(cfg, s) && id in s.peers && s.peers[id].down != []
    ensures Inv(cfg, s.(peers := s.peers[id := ClientTakes(cfg, s.peers[id])]))
  {
    PastIsOk(cfg, s);
    hide PastOk, PeerOk, ClientTakes, ServerOk, ClientOk;
    ClientTakesKeepsPeer(cfg, s.past, s.peers[id]);
    ReplaceKeepsInv(cfg, s, id, ClientTakes(cfg, s.peers[id]));
  }

  lemma ClientEditsKeepsInv<N>(cfg: Config<N>, s: System<N>, id: nat, d: Diff, c: int)
    requires Inv(cfg, s) && cfg.saveInterval > 0 && Enabled(s, ClientEdits(id, d, c)) && s.core.row.content.Plain?
    ensures Inv(cfg, Take(cfg, s, ClientEdits(id, d, c)))
  {
    hide PastOk, PeerOk, ServerOk, ClientOk;
    var p := s.peers[id];
    var msg := Counted(Some(c), Some(p.got), UpDiff(d));
    var q := p.(client := p.client.(pending := Some(d)), used := p.used + {d.rid.value}, up := p.up + [msg]);
    assert KnownUp(q, msg);
    ClientEditsKeepsPeer(cfg, s.past, p, d, q);
    ReplaceKeepsInv(cfg, s, id, q);
  }

  lemma ReturningIsOk<N>(cfg: Config<N>, s: System<N>, who: nat)
    requires Inv(cfg, s) && who < |s.away|
    ensures ClientOk(cfg, s.past, s.away[who])
  {
  }

  lemma RowIsReadable<N>(cfg: Config<N>, s: System<N>)
    requires Inv(cfg, s)
    ensures s.core.row.content.Plain? && ClientOk(cfg, s.past, Loaded(s.core.row))
  {
    LoadedIsOk(cfg, s.past, s.core);
  }

  lemma ServerStepKeepsInv<N>(cfg: Config<N>, s: System<N>, step: Step<N>)
    requires Inv(cfg, s) && cfg.saveInterval > 0 && Enabled(s, step) && s.core.row.content.Plain?
    requires step.ServerReceives? || step.ServerSaves? || step.Leaves?
    ensures Inv(cfg, Take(cfg, s, step))
  {
    hide Inv, Left, ServerTakes, Save;
    match step
    case ServerReceives(id) => ServerTakesKeepsInv(cfg, s, id);
    case ServerSaves(force) => ServerSavesKeepsInv(cfg, s, force);
    case Leaves(id) => LeftKeepsInv(cfg, s, id);
  }

  lemma TakeFreshJoin<N>(cfg: Config<N>, s: System<N>, role: Role, connection: int)
    requires cfg.saveInterval > 0 && s.core.row.content.Plain?
    ensures Take(cfg, s, JoinsFresh(role, connection)) == Joined(cfg, s, role, Loaded(s.core.row), connection)
  {
    hide Joined, Left, ServerTakes, ClientTakes, Save, Loaded;
  }

  lemma TakeReturn<N>(cfg: Config<N>, s: System<N>, role: Role, who: nat, connection: int)
    requires cfg.saveInterval > 0 && s.core.row.content.Plain? && who < |s.away|
    ensures Take(cfg, s, Returns(role, who, connection)) == Joined(cfg, s, role, s.away[who], connection)
  {
    hide Joined, Left, ServerTakes, ClientTakes, Save, Loaded;
  }

  lemma FreshJoinKeepsInv<N>(cfg: Config<N>, s: System<N>, role: Role, connection: int)
    requires Inv(cfg, s) && cfg.saveInterval > 0 && s.core.row.content.Plain?
    ensures Inv(cfg, Take(cfg, s, JoinsFresh(role, connection)))
  {
    RowIsReadable(cfg, s);
    hide *;
    TakeFreshJoin(cfg, s, role, connection);
    JoinedKeepsInv(cfg, s, role, Loaded(s.core.row), connection);
  }

  lemma ReturnKeepsInv<N>(cfg: Config<N>, s: System<N>, role: Role, who: nat, connection: int)
    requires Inv(cfg, s) && cfg.saveInterval > 0 && s.core.row.content.Plain? && who < |s.away|
    ensures Inv(cfg, Take(cfg, s, Returns(role, who, connection)))
  {
    ReturningIsOk(cfg, s, who);
    hide *;
    TakeReturn(cfg, s, role, who, connection);
    JoinedKeepsInv(cfg, s, role, s.away[who], connection);
  }

  lemma ClientReceivesStep<N>(cfg: Config<N>, s: System<N>, id: nat)
    requires Inv(cfg, s) && id in s.peers && s.peers[id].down != []
    requires cfg.saveInterval > 0 && s.core.row.content.Plain?
    ensures Inv(cfg, Take(cfg, s, ClientReceives(id)))
  {
    hide Inv, ClientTakes, ClientOk;
    ClientReceivesKeepsInv(cfg, s, id);
  }

  /** Every step of the whole system keeps the invariant. */
  lemma StepKeepsInv<N>(cfg: Config<N>, s: System<N>, step: Step<N>)
    requires Inv(cfg, s) && cfg.saveInterval > 0 && Enabled(s, step)
    ensures s.core.row.content.Plain? && Inv(cfg, Take(cfg, s, step))
  {
    RowIsReadable(cfg, s);
    hide Inv, Take, ClientOk, MaySend;
    match step
    case ClientReceives(id) => ClientReceivesStep(cfg, s, id);
    case ClientEdits(id, d, c) => ClientEditsKeepsInv(cfg, s, id, d, c);
    case ServerReceives(_) => ServerStepKeepsInv(cfg, s, step);
    case ServerSaves(_) => ServerStepKeepsInv(cfg, s, step);
    case Leaves(_) => ServerStepKeepsInv(cfg, s, step);
    case JoinsFresh(role, connection) => FreshJoinKeepsInv(cfg, s, role, connection);
    case Returns(role, who, connection) => ReturnKeepsInv(cfg, s, role, who, connection);
    case ClientSends(id, _) => SmallStepKeepsInv(cfg, s, step, id);
    case ClientReloads(id) => SmallStepKeepsInv(cfg, s, step, id);
    case DownScrambled(id, _) => SmallStepKeepsInv(cfg, s, step, id);
    case UpScrambled(id, _) => SmallStepKeepsInv(cfg, s, step, id);
    case RightsChange(id, _) => SmallStepKeepsInv(cfg, s, step, id);
  }

  lemma SmallStepKeepsInv<N>(cfg: Config<N>, s: System<N>, step: Step<N>, id: nat)
    requires Inv(cfg, s) && cfg.saveInterval > 0 && Enabled(s, step)
    requires step.ClientSends? || step.ClientReloads? || step.DownScrambled? || step.UpScrambled? || step.RightsChange?
    requires id == step.id
    ensures s.core.row.content.Plain? && Inv(cfg, Take(cfg, s, step))
  {
    LoadedIsOk(cfg, s.past, s.core);
    hide ServerOk, PeerOk, ClientOk;
    var q := Take(cfg, s, step).peers[id];
    SmallPeerSteps(cfg, s.past, s.peers[id], step, q);
    ReplaceKeepsInv(cfg, s, id, q);
  }

  lemma PastIsOk<N>(cfg: Config<N>, s: System<N>)
    requires Inv(cfg, s)
    ensures PastOk(cfg, s.past)
  {
  }

  // ---- Runs

  ghost predicate Run<N>(cfg: Config<N>, s: System<N>, steps: seq<Step<N>>)
    requires cfg.saveInterval > 0
    decreases |steps|
  {
    steps == [] ||
    (Enabled(s, steps[0]) && s.core.row.content.Plain? && Run(cfg, Take(cfg, s, steps[0]), steps[1..]))
  }

  ghost function After<N>(cfg: Config<N>, s: System<N>, steps: seq<Step<N>>): System<N>
    requires cfg.saveInterval > 0 && Run(cfg, s, steps)
    decreases |steps|
  {
    if steps == [] then s else After(cfg, Take(cfg, s, steps[0]), steps[1..])
  }

  /** A stored document nobody is working on, with its log. */
  ghost predicate Stored<N>(cfg: Config<N>, base: N, row: Doc<N>) {
    && !row.e2ee && row.content.Plain?
    && |row.diffs| <= HISTORY_LENGTH
    && (forall i :: 0 <= i < |row.diffs| ==> row.diffs[i].v == row.version - |row.diffs| + i)
    && Fold(cfg, base, row.diffs) == Some(row.content.value)
  }

  ghost function Start<N>(base: N, row: Doc<N>, images: ImageRows): System<N> {
    System(Past(base, row.version - |row.diffs|, row.diffs, seq(|row.diffs|, _ => 0)),
           Open(row, images), [], map[], [], 1)
  }

  lemma StartIsOk<N>(cfg: Config<N>, base: N, row: Doc<N>, images: ImageRows)
    requires Stored(cfg, base, row)
    ensures Inv(cfg, Start(base, row, images))
  {
    OpenIsSaved(cfg, row, images);
    assert row.diffs[..|row.diffs|] == row.diffs;
  }

  lemma {:induction false} RunKeepsInv<N>(cfg: Config<N>, s: System<N>, steps: seq<Step<N>>)
    requires cfg.saveInterval > 0 && Run(cfg, s, steps) && Inv(cfg, s)
    ensures Inv(cfg, After(cfg, s, steps))
    decreases |steps|
  {
    if steps != [] {
      hide Inv, Take, Enabled;
      StepKeepsInv(cfg, s, steps[0]);
      RunKeepsInv(cfg, Take(cfg, s, steps[0]), steps[1..]);
    }
  }

  /** The server's node is the fold of all accepted diffs, every client's document is the fold of the accepted diffs
      up to its version, and documents at the same version are the same. */
  ghost predicate Converged<N>(cfg: Config<N>, s: System<N>) {
    && s.core.doc.version == s.past.start + |s.past.history|
    && s.core.node.Some? && s.core.node == Fold(cfg, s.past.base, s.past.history)
    && (forall k :: k in s.peers ==>
          var c := s.peers[k].client;
          && s.past.start <= c.ver <= s.core.doc.version
          && Fold(cfg, s.past.base, s.past.history[..c.ver - s.past.start]) == Some(c.node))
    && (forall k, j :: k in s.peers && j in s.peers && s.peers[k].client.ver == s.peers[j].client.ver ==>
          s.peers[k].client.node == s.peers[j].client.node)
    && (forall k :: k in s.peers && s.peers[k].client.ver == s.core.doc.version ==>
          Some(s.peers[k].client.node) == s.core.node)
  }

  lemma InvMeansConverged<N>(cfg: Config<N>, s: System<N>)
    requires Inv(cfg, s)
    ensures Converged(cfg, s)
  {
    hide PeerOk, RowOk, SaveInv, Fold, Last, UidsOk, OrderOk, ServerOk;
    InvMeansFaithful(cfg, s);
    forall k | k in s.peers ensures ClientOk(cfg, s.past, s.peers[k].client) {
      PeerClientOk(cfg, s.past, s.peers[k]);
    }
    hide Inv;
    assert s.past.history[..|s.past.history|] == s.past.history;
  }

  lemma InvMeansFaithful<N>(cfg: Config<N>, s: System<N>)
    requires Inv(cfg, s)
    ensures Faithful(cfg, s.past.base, s.past.start, s.past.history, s.core)
  {
  }

  /** Convergence: however many clients join, edit, catch up, reload, leave and return, over links that lose, repeat
      and reorder, every reachable state is converged. */
  lemma EveryRunConverges<N>(cfg: Config<N>, base: N, row: Doc<N>, images: ImageRows, steps: seq<Step<N>>)
    requires cfg.saveInterval > 0 && Stored(cfg, base, row)
    requires Run(cfg, Start(base, row, images), steps)
    ensures Converged(cfg, After(cfg, Start(base, row, images), steps))
  {
    hide Inv, Run, After, Start, Stored, Converged;
    StartIsOk(cfg, base, row, images);
    RunKeepsInv(cfg, Start(base, row, images), steps);
    InvMeansConverged(cfg, After(cfg, Start(base, row, images), steps));
  }
}
