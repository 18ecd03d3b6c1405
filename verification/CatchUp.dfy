/** A client that asks comes up to date by its answer in every run, whatever everybody else does meanwhile. */
module CatchUp {
  import opened Prelude
  import opened Access
  import opened Comments
  import opened Link
  import opened Documents
  import opened Session
  import opened Replay
  import opened Saving
  import opened Convergence
  import opened Liveness

  /** A step that leaves participant `k` to its answer: its link delivers in order and it sends nothing itself.
      Everybody else may do anything, and so may the server. */
  predicate LeavesAlone<N>(step: Convergence.Step<N>, k: nat) {
    match step
    case ClientEdits(id, _, _) => id != k
    case ClientSends(id, _) => id != k
    case ClientReloads(id) => id != k
    case DownScrambled(id, _) => id != k
    case UpScrambled(id, _) => id != k
    case Leaves(id) => id != k
    case _ => true
  }

  ghost predicate AllLeaveAlone<N>(steps: seq<Convergence.Step<N>>, k: nat) {
    forall i :: 0 <= i < |steps| ==> LeavesAlone(steps[i], k)
  }

  // ---- What a step of somebody else does to a connection

  /** The server has sent some messages, next in line; nothing else has happened. */
  ghost predicate Extended<N>(p: Peer<N>, q: Peer<N>) {
    && q.up == p.up && q.got == p.got && q.client == p.client && q.conn.client == p.conn.client
    && |p.down| <= |q.down| && q.down[..|p.down|] == p.down
    && q.conn.server == p.conn.server + (|q.down| - |p.down|)
    && forall i :: |p.down| <= i < |q.down| ==> q.down[i].s == p.conn.server + 1 + (i - |p.down|)
  }

  lemma PostedIsExtended<N>(p: Peer<N>, msgs: seq<Msg>)
    ensures Extended(p, p) && Extended(p, PostTo(p, msgs))
  {
  }

  lemma MailExtends<N>(peers: map<nat, Peer<N>>, mail: map<nat, seq<Msg>>, k: nat)
    requires k in peers
    ensures k in Post(peers, mail) && Extended(peers[k], Post(peers, mail)[k])
  {
    hide PostTo, Extended;
    PostedIsExtended(peers[k], if k in mail then mail[k] else []);
  }

  lemma HandlingExtends<N>(cfg: Config<N>, s: System<N>, id: nat, verdict: Verdict<Up>, k: nat)
    requires cfg.saveInterval > 0 && id in s.peers && k in s.peers
    ensures k in Handles(cfg, s, id, verdict).peers && Extended(s.peers[k], Handles(cfg, s, id, verdict).peers[k])
  {
    hide Post, HandleDiff, CheckVersion, Accepts, Extended, Reject;
    PostedIsExtended(s.peers[k], []);
    match verdict
    case Handled(_, UpDiff(d)) => MailExtends(s.peers, HandleDiff(cfg, s.core, s.order, Roles(s.peers), id, d).mail, k);
    case Handled(_, UpCheck(v, offline)) =>
      MailExtends(s.peers, CheckVersion(cfg, s.core, Roles(s.peers), id, v, offline).mail, k);
    case Rejected(_, UpDiff(d)) => MailExtends(s.peers, Reject(s.core, Roles(s.peers), id, d).mail, k);
    case _ =>
  }

  lemma JoiningExtends<N>(cfg: Config<N>, s: System<N>, role: Role, client: Client<N>, connection: int, k: nat)
    requires k in s.peers && k in s.order
    ensures var t := Joined(cfg, s, role, client, connection); k in t.peers && Extended(s.peers[k], t.peers[k])
  {
    NewIdIsFresh(s.order);
    hide NewId, Post, PostTo, Greet, Extended;
    var id := NewId(s.order);
    var p := PostTo(Peer(role, s.nextUid, Conn(0, 0, []), [], [], 0, client.(pending := None), {}), [Other("welcome")]);
    var peers := s.peers[id := p];
    MailExtends(peers, Greet(cfg, s.core, Roles(peers), id, connection, Some(client.ver)).mail, k);
  }

  lemma LeavingExtends<N>(cfg: Config<N>, s: System<N>, id: nat, k: nat)
    requires id in s.peers && k in s.peers && id != k
    ensures var t := Left(cfg, s, id); k in t.peers && Extended(s.peers[k], t.peers[k])
  {
    hide Post, Drop, Save, Extended, ParticipantList;
    var peers := s.peers - {id};
    MailExtends(peers, ParticipantList(Roles(peers)), k);
  }

  lemma TakingExtends<N>(cfg: Config<N>, s: System<N>, id: nat, k: nat)
    requires cfg.saveInterval > 0 && id in s.peers && s.peers[id].up != [] && k in s.peers && id != k
    ensures var t := ServerTakes(cfg, s, id); k in t.peers && Extended(s.peers[k], t.peers[k])
  {
    hide Handles, Received, Resaved, Extended;
    var p := s.peers[id];
    var s' := s.(core := Resaved(cfg, s.core, p.conn, p.up[0]), peers := s.peers[id := Received(p)]);
    HandlingExtends(cfg, s', id, Judge(p.conn, p.up[0]), k);
  }

  lemma InOrder<N>(cfg: Config<N>, s: System<N>, k: nat)
    requires Inv(cfg, s) && k in s.peers
    ensures k in s.order && ServerOk(cfg, s.past, s.core)
  {
    hide ServerOk, UidsOk, PeerOk;
  }

  lemma OtherStepsExtend<N>(cfg: Config<N>, s: System<N>, step: Convergence.Step<N>, k: nat)
    requires cfg.saveInterval > 0 && Enabled(s, step) && s.core.row.content.Plain? && k in s.peers
    requires LeavesAlone(step, k) && step != ClientReceives(k)
    requires !step.ServerReceives? && !step.JoinsFresh? && !step.Returns?
    ensures var t := Take(cfg, s, step); k in t.peers && Extended(s.peers[k], t.peers[k])
  {
    hide Joined, Left, ServerTakes, ClientTakes, Save, Loaded, MaySend;
    if step.Leaves? {
      LeavingExtends(cfg, s, step.id, k);
    }
  }

  /** But for its own receiving, and the server's receiving from it, every step at most sends it messages. */
  lemma StepExtends<N>(cfg: Config<N>, s: System<N>, step: Convergence.Step<N>, k: nat)
    requires cfg.saveInterval > 0 && Inv(cfg, s) && Enabled(s, step) && s.core.row.content.Plain? && k in s.peers
    requires LeavesAlone(step, k) && step != ServerReceives(k) && step != ClientReceives(k)
    ensures var t := Take(cfg, s, step); k in t.peers && Extended(s.peers[k], t.peers[k])
  {
    InOrder(cfg, s, k);
    hide Inv, Take, Extended, Joined, ServerTakes, MaySend, ServerOk;
    match step
    case ServerReceives(id) =>
      TakeReceives(cfg, s, id);
      TakingExtends(cfg, s, id, k);
    case JoinsFresh(role, connection) =>
      TakeFreshJoin(cfg, s, role, connection);
      JoiningExtends(cfg, s, role, Loaded(s.core.row), connection, k);
    case Returns(role, who, connection) =>
      TakeReturn(cfg, s, role, who, connection);
      JoiningExtends(cfg, s, role, s.away[who], connection, k);
    case _ => OtherStepsExtend(cfg, s, step, k);
  }

  // ---- The row never goes back

  lemma SavedRowGrows<N>(cfg: Config<N>, past: Past<N>, core: Core<N>, force: bool)
    requires ServerOk(cfg, past, core)
    ensures core.row.version <= core.doc.version
    ensures core.row.version <= Save(cfg, core, force).row.version
  {
    SaveKeepsServer(cfg, past, core, force);
    hide Save, Fold, Last;
  }

  lemma CheckedRowGrows<N>(cfg: Config<N>, past: Past<N>, core: Core<N>, roles: map<nat, Role>, id: nat, v: Option<int>,
                           offline: bool)
    requires id in roles && ServerOk(cfg, past, core)
    ensures core.row.version <= CheckVersion(cfg, core, roles, id, v, offline).core.row.version
  {
    SavedRowGrows(cfg, past, core, false);
    hide Save, Missing, ServerOk;
  }

  lemma EditedRowGrows<N>(cfg: Config<N>, past: Past<N>, core: Core<N>, order: seq<nat>, roles: map<nat, Role>, id: nat,
                          d: Diff)
    requires cfg.saveInterval > 0 && id in roles && ServerOk(cfg, past, core)
    ensures core.row.version <= HandleDiff(cfg, core, order, roles, id, d).core.row.version
  {
    hide HandleDiff, Fold, Last, Accepts;
    DiffRow(cfg, core, order, roles, id, d);
    VersionCountsAccepted(cfg, core, order, roles, id, d);
  }

  lemma HandlingGrowsRow<N>(cfg: Config<N>, s: System<N>, id: nat, verdict: Verdict<Up>)
    requires cfg.saveInterval > 0 && id in s.peers && ServerOk(cfg, s.past, s.core)
    ensures s.core.row.version <= Handles(cfg, s, id, verdict).core.row.version
  {
    hide Post, HandleDiff, CheckVersion, Accepts, Reject, ServerOk;
    match verdict
    case Handled(_, UpDiff(d)) => EditedRowGrows(cfg, s.past, s.core, s.order, Roles(s.peers), id, d);
    case Handled(_, UpCheck(v, offline)) => CheckedRowGrows(cfg, s.past, s.core, Roles(s.peers), id, v, offline);
    case _ =>
  }

  lemma TakingGrowsRow<N>(cfg: Config<N>, s: System<N>, id: nat)
    requires cfg.saveInterval > 0 && id in s.peers && s.peers[id].up != [] && ServerOk(cfg, s.past, s.core)
    ensures s.core.row.version <= ServerTakes(cfg, s, id).core.row.version
  {
    hide Handles, Received, Save, ServerOk;
    SavedRowGrows(cfg, s.past, s.core, false);
    SaveKeepsServer(cfg, s.past, s.core, false);
    var p := s.peers[id];
    var s' := s.(core := Resaved(cfg, s.core, p.conn, p.up[0]), peers := s.peers[id := Received(p)]);
    HandlingGrowsRow(cfg, s', id, Judge(p.conn, p.up[0]));
  }

  lemma JoiningGrowsRow<N>(cfg: Config<N>, s: System<N>, role: Role, client: Client<N>, connection: int)
    requires ServerOk(cfg, s.past, s.core) && s.peers != map[]
    ensures s.core.row.version <= Joined(cfg, s, role, client, connection).core.row.version
  {
    hide NewId, Post, PostTo, CheckVersion, ServerOk;
    var id := NewId(s.order);
    var p := PostTo(Peer(role, s.nextUid, Conn(0, 0, []), [], [], 0, client.(pending := None), {}), [Other("welcome")]);
    CheckedRowGrows(cfg, s.past, s.core, Roles(s.peers[id := p]), id, Some(client.ver), false);
  }

  lemma OtherStepsGrowRow<N>(cfg: Config<N>, s: System<N>, step: Convergence.Step<N>)
    requires cfg.saveInterval > 0 && Enabled(s, step) && s.core.row.content.Plain? && ServerOk(cfg, s.past, s.core)
    requires !step.ServerReceives? && !step.JoinsFresh? && !step.Returns?
    ensures s.core.row.version <= Take(cfg, s, step).core.row.version
  {
    hide ServerOk, ClientTakes, Save, Loaded, MaySend, Post, Drop;
    SavedRowGrows(cfg, s.past, s.core, if step.ServerSaves? then step.force else false);
  }

  lemma StepGrowsRow<N>(cfg: Config<N>, s: System<N>, step: Convergence.Step<N>, k: nat)
    requires cfg.saveInterval > 0 && Inv(cfg, s) && Enabled(s, step) && s.core.row.content.Plain? && k in s.peers
    ensures s.core.row.version <= Take(cfg, s, step).core.row.version
  {
    InOrder(cfg, s, k);
    hide Inv, Take, Joined, ServerTakes, MaySend, ServerOk;
    match step
    case ServerReceives(id) =>
      TakeReceives(cfg, s, id);
      TakingGrowsRow(cfg, s, id);
    case JoinsFresh(role, connection) =>
      TakeFreshJoin(cfg, s, role, connection);
      JoiningGrowsRow(cfg, s, role, Loaded(s.core.row), connection);
    case Returns(role, who, connection) =>
      TakeReturn(cfg, s, role, who, connection);
      JoiningGrowsRow(cfg, s, role, s.away[who], connection);
    case _ => OtherStepsGrowRow(cfg, s, step);
  }

  // ---- While the question waits

  /** `asker` has sent its question; the server may have sent it something since. */
  ghost predicate Waiting<N>(asker: Peer<N>, p: Peer<N>) {
    && p.up == [Question(asker)] && p.conn.client == asker.conn.client
    && NextInLine(p) && p.got + |p.down| == p.conn.server && asker.conn.server <= p.conn.server
    && (p.conn.server == asker.conn.server ==> p.down == [] && p.got == asker.got && p.client == asker.client)
  }

  lemma ExtendedWaits<N>(asker: Peer<N>, p: Peer<N>, q: Peer<N>)
    requires Waiting(asker, p) && Extended(p, q)
    ensures Waiting(asker, q)
  {
    forall i | 0 <= i < |q.down| ensures q.down[i].s == q.got + 1 + i {
      if i < |p.down| {
        assert q.down[i] == q.down[..|p.down|][i];
      }
    }
    assert |q.down| == |p.down| ==> q.down == q.down[..|p.down|];
    hide Question;
  }

  lemma TakingWaits<N>(cfg: Config<N>, asker: Peer<N>, p: Peer<N>)
    requires Waiting(asker, p) && p.down != []
    ensures Waiting(asker, ClientTakes(cfg, p))
  {
    hide Question, Hear;
  }

  lemma EnabledHas<N>(s: System<N>, step: Convergence.Step<N>, k: nat)
    requires k in s.peers && Enabled(s, step)
    ensures step == ClientReceives(k) ==> s.peers[k].down != []
    ensures step == ServerReceives(k) ==> s.peers[k].up != []
  {
  }

  lemma StepWaits<N>(cfg: Config<N>, s: System<N>, step: Convergence.Step<N>, k: nat, asker: Peer<N>)
    requires cfg.saveInterval > 0 && Inv(cfg, s) && Enabled(s, step) && s.core.row.content.Plain?
    requires k in s.peers && Waiting(asker, s.peers[k]) && LeavesAlone(step, k) && step != ServerReceives(k)
    ensures var t := Take(cfg, s, step); k in t.peers && Waiting(asker, t.peers[k])
  {
    EnabledHas(s, step, k);
    hide Inv, Take, Enabled, LeavesAlone, Waiting, Extended;
    if step == ClientReceives(k) {
      TakeClient(cfg, s, k);
      TakingWaits(cfg, asker, s.peers[k]);
    } else {
      StepExtends(cfg, s, step, k);
      ExtendedWaits(asker, s.peers[k], Take(cfg, s, step).peers[k]);
    }
  }

  lemma {:induction false} RunWaits<N>(cfg: Config<N>, s: System<N>, steps: seq<Convergence.Step<N>>, k: nat,
                                       asker: Peer<N>)
    requires cfg.saveInterval > 0 && Inv(cfg, s) && Run(cfg, s, steps) && k in s.peers && Waiting(asker, s.peers[k])
    requires AllLeaveAlone(steps, k) && ServerReceives(k) !in steps
    ensures var t := After(cfg, s, steps); Inv(cfg, t) && k in t.peers && Waiting(asker, t.peers[k])
    decreases |steps|
  {
    if steps != [] {
      hide Inv, Take, Waiting, Enabled;
      StepKeepsInv(cfg, s, steps[0]);
      StepWaits(cfg, s, steps[0], k, asker);
      RunWaits(cfg, Take(cfg, s, steps[0]), steps[1..], k, asker);
    }
  }

  // ---- While the answer is on its way

  /** The answer to a question taken at version `n` is under way or has been taken: within reach, what is under way
      takes the client to `n` at least; otherwise a reload does. */
  ghost predicate Reaches<N>(cfg: Config<N>, s: System<N>, k: nat, n: int, near: bool)
    requires k in s.peers
  {
    var p := s.peers[k];
    && p.up == [] && NextInLine(p) && p.got + |p.down| == p.conn.server
    && if near then n <= HearAll(cfg, p.client, Bodies(p.down)).ver else n <= s.core.row.version
  }

  lemma {:induction false} HearingMoreIsNoLess<N>(cfg: Config<N>, c: Client<N>, a: seq<Msg>, b: seq<Msg>)
    ensures HearAll(cfg, c, a).ver <= HearAll(cfg, c, a + b).ver
    decreases |a|, |b|
  {
    if a != [] {
      assert (a + b)[0] == a[0] && (a + b)[1..] == a[1..] + b;
      HearingMoreIsNoLess(cfg, Hear(cfg, c, a[0]), a[1..], b);
    } else if b != [] {
      assert a + b == b && [] + b[1..] == b[1..];
      HearingMoreIsNoLess(cfg, Hear(cfg, c, b[0]), [], b[1..]);
    }
  }

  lemma ExtendedReaches<N>(cfg: Config<N>, p: Peer<N>, q: Peer<N>)
    requires p.up == [] && NextInLine(p) && p.got + |p.down| == p.conn.server && Extended(p, q)
    ensures q.up == [] && NextInLine(q) && q.got + |q.down| == q.conn.server
    ensures HearAll(cfg, p.client, Bodies(p.down)).ver <= HearAll(cfg, q.client, Bodies(q.down)).ver
  {
    forall i | 0 <= i < |q.down| ensures q.down[i].s == q.got + 1 + i {
      if i < |p.down| {
        assert q.down[i] == q.down[..|p.down|][i];
      }
    }
    var more := q.down[|p.down|..];
    assert q.down == p.down + more;
    assert Bodies(q.down) == Bodies(p.down) + Bodies(more);
    HearingMoreIsNoLess(cfg, p.client, Bodies(p.down), Bodies(more));
  }

  lemma TakingReaches<N>(cfg: Config<N>, p: Peer<N>)
    requires p.up == [] && NextInLine(p) && p.got + |p.down| == p.conn.server && p.down != []
    ensures var q := ClientTakes(cfg, p);
      && q.up == [] && NextInLine(q) && q.got + |q.down| == q.conn.server
      && HearAll(cfg, p.client, Bodies(p.down)) == HearAll(cfg, q.client, Bodies(q.down))
  {
    DeliverOne(cfg, p);
    hide HearAll, Hear, Bodies;
  }

  lemma StepReaches<N>(cfg: Config<N>, s: System<N>, step: Convergence.Step<N>, k: nat, n: int, near: bool)
    requires cfg.saveInterval > 0 && Inv(cfg, s) && Enabled(s, step) && s.core.row.content.Plain?
    requires k in s.peers && Reaches(cfg, s, k, n, near) && LeavesAlone(step, k)
    ensures var t := Take(cfg, s, step); k in t.peers && Reaches(cfg, t, k, n, near)
  {
    EnabledHas(s, step, k);
    hide Inv, Take, Enabled, LeavesAlone, Extended, NextInLine, HearAll, Bodies;
    StepGrowsRow(cfg, s, step, k);
    if step == ClientReceives(k) {
      TakeClient(cfg, s, k);
      TakingReaches(cfg, s.peers[k]);
    } else {
      StepExtends(cfg, s, step, k);
      ExtendedReaches(cfg, s.peers[k], Take(cfg, s, step).peers[k]);
    }
  }

  lemma {:induction false} RunReaches<N>(cfg: Config<N>, s: System<N>, steps: seq<Convergence.Step<N>>, k: nat, n: int,
                                         near: bool)
    requires cfg.saveInterval > 0 && Inv(cfg, s) && Run(cfg, s, steps)
    requires k in s.peers && Reaches(cfg, s, k, n, near) && AllLeaveAlone(steps, k)
    ensures var t := After(cfg, s, steps); Inv(cfg, t) && k in t.peers && Reaches(cfg, t, k, n, near)
    decreases |steps|
  {
    if steps != [] {
      hide Inv, Take, Reaches, Enabled;
      StepKeepsInv(cfg, s, steps[0]);
      StepReaches(cfg, s, steps[0], k, n, near);
      RunReaches(cfg, Take(cfg, s, steps[0]), steps[1..], k, n, near);
    }
  }

  // ---- Every run

  function Ask<N>(s: System<N>, k: nat): Convergence.Step<N>
    requires k in s.peers
  {
    ClientSends(k, Question(s.peers[k]))
  }

  lemma AskedWaits<N>(cfg: Config<N>, s: System<N>, k: nat, before: seq<Convergence.Step<N>>)
    requires cfg.saveInterval > 0 && Inv(cfg, s) && k in s.peers && Drained(s.peers[k])
    requires Run(cfg, s, [Ask(s, k)] + before)
    requires AllLeaveAlone(before, k) && ServerReceives(k) !in before
    ensures var a := After(cfg, s, [Ask(s, k)] + before);
      Inv(cfg, a) && k in a.peers && Waiting(s.peers[k], a.peers[k])
  {
    hide Inv;
    RowIsReadable(cfg, s);
    Liveness.Asks(cfg, s, k);
    StepKeepsInv(cfg, s, Ask(s, k));
    assert Waiting(s.peers[k], Take(cfg, s, Ask(s, k)).peers[k]);
    assert ([Ask(s, k)] + before)[0] == Ask(s, k) && ([Ask(s, k)] + before)[1..] == before;
    hide Take, Enabled, Question, Waiting;
    RunWaits(cfg, Take(cfg, s, Ask(s, k)), before, k, s.peers[k]);
  }

  /** The question is taken up exactly when nothing has been sent to the client since it asked. */
  lemma TakenUpIff<N>(asker: Peer<N>, p: Peer<N>)
    requires Drained(asker) && Waiting(asker, p)
    ensures Judge<Msg, Up>(p.conn, p.up[0]).Handled? <==> p.conn.server == asker.conn.server
    ensures p.conn.server == asker.conn.server ==>
      p.up == [Question(p)] && p.down == [] && p.got == p.conn.server && p.client == asker.client
  {
  }

  lemma AnsweredReaches<N>(cfg: Config<N>, s: System<N>, k: nat, t: System<N>)
    requires k in s.peers && Answered(cfg, s, k, t)
    ensures Reaches(cfg, t, k, s.core.doc.version, InReach(s, k))
    ensures !InReach(s, k) ==> Bodies(t.peers[k].down) == [Refetch]
  {
    hide HearAll, NextInLine, Bodies, OthersAsBefore;
  }

  /** The client is where the server was when it took the question, or further: on the server's path within its version,
      and at the server's document if nothing has been accepted since. */
  ghost predicate UpToDate<N>(cfg: Config<N>, t: System<N>, k: nat, n: int)
    requires k in t.peers
  {
    var c := t.peers[k].client;
    && n <= c.ver <= t.core.doc.version && ClientOk(cfg, t.past, c)
    && (t.core.doc.version == n ==> Some(c.node) == t.core.node)
  }

  lemma DeliveredIsUpToDate<N>(cfg: Config<N>, t: System<N>, k: nat, n: int)
    requires Inv(cfg, t) && k in t.peers && Reaches(cfg, t, k, n, true) && t.peers[k].down == []
    ensures Drained(t.peers[k]) && UpToDate(cfg, t, k, n)
  {
    GoodParts(cfg, t, k);
    assert Bodies(t.peers[k].down) == [];
    assert t.past.history[..|t.past.history|] == t.past.history;
    hide Inv, Fold, Last;
  }

  lemma FromTheAnswerOn<N>(cfg: Config<N>, a: System<N>, k: nat, after: seq<Convergence.Step<N>>)
    requires cfg.saveInterval > 0 && Inv(cfg, a) && k in a.peers && Run(cfg, a, [ServerReceives(k)] + after)
    requires var p := a.peers[k]; p.up == [Question(p)] && p.down == [] && p.got == p.conn.server
    requires AllLeaveAlone(after, k)
    ensures var b := ServerTakes(cfg, a, k);
      k in b.peers && (!InReach(a, k) ==> Bodies(b.peers[k].down) == [Refetch])
    ensures var t := After(cfg, a, [ServerReceives(k)] + after);
      Inv(cfg, t) && k in t.peers && Reaches(cfg, t, k, a.core.doc.version, InReach(a, k))
  {
    hide Inv, Take, Question, Answered, Reaches, InReach, AllLeaveAlone, Enabled, ServerTakes;
    RowIsReadable(cfg, a);
    TakeReceives(cfg, a, k);
    StepKeepsInv(cfg, a, ServerReceives(k));
    QuestionIsAnswered(cfg, a, k);
    var b := Take(cfg, a, ServerReceives(k));
    assert k in b.peers by { StillThere(cfg, a, k, b); }
    AnsweredReaches(cfg, a, k, b);
    assert ([ServerReceives(k)] + after)[0] == ServerReceives(k) && ([ServerReceives(k)] + after)[1..] == after;
    RunReaches(cfg, b, after, k, a.core.doc.version, InReach(a, k));
  }

  lemma WaitsInLine<N>(asker: Peer<N>, p: Peer<N>)
    requires Waiting(asker, p)
    ensures p.up == [Question(asker)]
  {
  }

  lemma RowIsRecent<N>(cfg: Config<N>, s: System<N>, k: nat, n: int)
    requires k in s.peers && Reaches(cfg, s, k, n, false)
    ensures n <= s.core.row.version
  {
  }

  lemma StillThere<N>(cfg: Config<N>, s: System<N>, k: nat, t: System<N>)
    requires k in s.peers && Answered(cfg, s, k, t)
    ensures k in t.peers
  {
  }

  /** What has become, at `t`, of a question that `asker` had sent and that the server came to at `a`. It takes the
      question up exactly when it has sent the client nothing since. Then a client within the reach of the log that has
      taken all it was sent is, by the answer alone, where the server was at `a`, or further; a client outside it has
      been told to refetch, and the row it reloads is as recent. */
  ghost predicate Resolved<N>(cfg: Config<N>, asker: Peer<N>, a: System<N>, k: nat, t: System<N>)
    requires cfg.saveInterval > 0 && k in a.peers && a.peers[k].up != []
  {
    var takenUp := Judge<Msg, Up>(a.peers[k].conn, a.peers[k].up[0]).Handled?;
    var n := a.core.doc.version;
    && (takenUp <==> a.peers[k].conn.server == asker.conn.server)
    && (takenUp ==> k in t.peers)
    && (takenUp ==>
          if asker.client.ver + |a.core.doc.diffs| >= n then
            t.peers[k].down == [] ==> Drained(t.peers[k]) && UpToDate(cfg, t, k, n)
          else
            var b := ServerTakes(cfg, a, k);
            k in b.peers && Bodies(b.peers[k].down) == [Refetch] && n <= t.core.row.version)
  }

  lemma TakenUpResolves<N>(cfg: Config<N>, asker: Peer<N>, a: System<N>, k: nat, after: seq<Convergence.Step<N>>)
    requires cfg.saveInterval > 0 && Inv(cfg, a) && k in a.peers && Drained(asker) && Waiting(asker, a.peers[k])
    requires a.peers[k].up != [] && a.peers[k].conn.server == asker.conn.server
    requires Run(cfg, a, [ServerReceives(k)] + after) && AllLeaveAlone(after, k)
    ensures Resolved(cfg, asker, a, k, After(cfg, a, [ServerReceives(k)] + after))
  {
    TakenUpIff(asker, a.peers[k]);
    hide Inv, Run, After, Question, Reaches, AllLeaveAlone, ServerTakes, UpToDate, Drained, Waiting, Bodies;
    FromTheAnswerOn(cfg, a, k, after);
    var t := After(cfg, a, [ServerReceives(k)] + after);
    if !InReach(a, k) {
      RowIsRecent(cfg, t, k, a.core.doc.version);
    } else if t.peers[k].down == [] {
      DeliveredIsUpToDate(cfg, t, k, a.core.doc.version);
    }
  }

  lemma PassedOverResolves<N>(cfg: Config<N>, asker: Peer<N>, a: System<N>, k: nat, t: System<N>)
    requires cfg.saveInterval > 0 && k in a.peers && Drained(asker) && Waiting(asker, a.peers[k])
    requires a.peers[k].up != [] && a.peers[k].conn.server != asker.conn.server
    ensures Resolved(cfg, asker, a, k, t)
  {
    TakenUpIff(asker, a.peers[k]);
    hide ServerTakes, UpToDate, Waiting, Bodies, Judge;
  }

  lemma AnsweredOrPassedOver<N>(cfg: Config<N>, asker: Peer<N>, a: System<N>, k: nat, after: seq<Convergence.Step<N>>)
    requires cfg.saveInterval > 0 && Inv(cfg, a) && k in a.peers && Drained(asker) && Waiting(asker, a.peers[k])
    requires Run(cfg, a, [ServerReceives(k)] + after) && AllLeaveAlone(after, k)
    ensures a.peers[k].up != []
    ensures Resolved(cfg, asker, a, k, After(cfg, a, [ServerReceives(k)] + after))
  {
    WaitsInLine(asker, a.peers[k]);
    hide Inv, Run, After, AllLeaveAlone, Drained, Waiting, Resolved;
    if a.peers[k].conn.server == asker.conn.server {
      TakenUpResolves(cfg, asker, a, k, after);
    } else {
      PassedOverResolves(cfg, asker, a, k, After(cfg, a, [ServerReceives(k)] + after));
    }
  }

  /**
   In every run: a client whose link is drained asks for its version; later the server comes to the question. Meanwhile
   and afterwards the client sends nothing else and its link keeps order; whoever else edits, asks, joins, leaves or
   loses frames, and whatever is saved, as often as they like. Then the question is resolved.
   */
  lemma AnsweredInEveryRun<N>(cfg: Config<N>, base: N, row: Doc<N>, images: ImageRows,
                              steps: seq<Convergence.Step<N>>, k: nat, before: seq<Convergence.Step<N>>,
                              after: seq<Convergence.Step<N>>)
    requires cfg.saveInterval > 0 && Stored(cfg, base, row) && Run(cfg, Start(base, row, images), steps)
    requires AllLeaveAlone(before, k) && ServerReceives(k) !in before && AllLeaveAlone(after, k)
    requires var s := After(cfg, Start(base, row, images), steps);
      && k in s.peers && Drained(s.peers[k]) && Run(cfg, s, [Ask(s, k)] + before)
      && Run(cfg, After(cfg, s, [Ask(s, k)] + before), [ServerReceives(k)] + after)
    ensures var s := After(cfg, Start(base, row, images), steps);
      var a := After(cfg, s, [Ask(s, k)] + before);
      var t := After(cfg, a, [ServerReceives(k)] + after);
      && Run(cfg, Start(base, row, images), steps + [Ask(s, k)] + before + [ServerReceives(k)] + after)
      && After(cfg, Start(base, row, images), steps + [Ask(s, k)] + before + [ServerReceives(k)] + after) == t
      && k in a.peers && a.peers[k].up != [] && Resolved(cfg, s.peers[k], a, k, t)
  {
    hide *;
    var start := Start(base, row, images);
    StartIsOk(cfg, base, row, images);
    RunKeepsInv(cfg, start, steps);
    var s := After(cfg, start, steps);
    AskedWaits(cfg, s, k, before);
    var a := After(cfg, s, [Ask(s, k)] + before);
    AnsweredOrPassedOver(cfg, s.peers[k], a, k, after);
    RunThen(cfg, start, steps, [Ask(s, k)] + before);
    RunThen(cfg, start, steps + ([Ask(s, k)] + before), [ServerReceives(k)] + after);
    assert steps + [Ask(s, k)] + before + [ServerReceives(k)] + after
        == steps + ([Ask(s, k)] + before) + ([ServerReceives(k)] + after);
  }
}
