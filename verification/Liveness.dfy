/** From drained links every client comes to the server's version by asking: within the reach of the log the answer
    alone takes it there, outside it the answer is a refetch and the row has been saved for the reload. */
module Liveness {
  import opened Prelude
  import opened Access
  import opened Comments
  import opened Link
  import opened Documents
  import opened Session
  import opened Replay
  import opened Saving
  import opened Convergence

  /** Nothing is under way, and the client has taken everything it was sent. */
  ghost predicate Drained<N>(p: Peer<N>) {
    p.up == [] && p.down == [] && p.got == p.conn.server
  }

  function Question<N>(p: Peer<N>): Incoming<Up> {
    Counted(Some(p.conn.client + 1), Some(p.got), UpCheck(Some(p.client.ver), false))
  }

  // ---- What a client does to catch up

  /** The log reaches back to the client's version. */
  predicate InReach<N>(s: System<N>, k: nat)
    requires k in s.peers
  {
    s.peers[k].client.ver + |s.core.doc.diffs| >= s.core.doc.version
  }

  /** The missing diffs and a confirmation, or one refetch. */
  function AnswerSize<N>(s: System<N>, k: nat): nat
    requires k in s.peers && s.peers[k].client.ver <= s.core.doc.version
  {
    if InReach(s, k) then s.core.doc.version - s.peers[k].client.ver + 1 else 1
  }

  function Takes<N>(k: nat, n: nat): seq<Convergence.Step<N>> {
    if n == 0 then [] else [ClientReceives(k)] + Takes(k, n - 1)
  }

  /** It asks, the server takes the question, and it takes the frames of the answer; only a client that is out of reach
      reloads. */
  function CatchingUp<N>(s: System<N>, k: nat): seq<Convergence.Step<N>>
    requires k in s.peers && s.peers[k].client.ver <= s.core.doc.version
  {
    [ClientSends(k, Question(s.peers[k])), ServerReceives(k)] + Takes(k, AnswerSize(s, k))
    + if InReach(s, k) then [] else [ClientReloads(k)]
  }

  // ---- Runs in pieces

  lemma {:induction false} RunThen<N>(cfg: Config<N>, s: System<N>, a: seq<Convergence.Step<N>>,
                                      b: seq<Convergence.Step<N>>)
    requires cfg.saveInterval > 0 && Run(cfg, s, a) && Run(cfg, After(cfg, s, a), b)
    ensures Run(cfg, s, a + b) && After(cfg, s, a + b) == After(cfg, After(cfg, s, a), b)
    decreases |a|
  {
    hide Take, Enabled;
    if a == [] {
      assert a + b == b;
    } else {
      assert (a + b)[0] == a[0] && (a + b)[1..] == a[1..] + b;
      RunThen(cfg, Take(cfg, s, a[0]), a[1..], b);
    }
  }

  lemma OneStep<N>(cfg: Config<N>, s: System<N>, step: Convergence.Step<N>)
    requires cfg.saveInterval > 0 && Enabled(s, step) && s.core.row.content.Plain?
    ensures Run(cfg, s, [step]) && After(cfg, s, [step]) == Take(cfg, s, step)
  {
    hide Take, Enabled;
    assert [step][1..] == [];
    var t := Take(cfg, s, step);
    assert Run(cfg, t, []) && After(cfg, t, []) == t;
  }

  // ---- The steps

  lemma Asks<N>(cfg: Config<N>, s: System<N>, k: nat)
    requires cfg.saveInterval > 0 && k in s.peers && s.core.row.content.Plain? && Drained(s.peers[k])
    ensures var p := s.peers[k];
      && Enabled(s, ClientSends(k, Question(p)))
      && Take(cfg, s, ClientSends(k, Question(p))) == s.(peers := s.peers[k := p.(up := [Question(p)])])
  {
    assert s.peers[k].up + [Question(s.peers[k])] == [Question(s.peers[k])];
    hide Joined, Left, ServerTakes, ClientTakes, Save, Loaded;
  }

  /** What the server makes of the question. */
  lemma Answers<N>(cfg: Config<N>, s: System<N>, k: nat)
    requires cfg.saveInterval > 0 && k in s.peers
    requires var p := s.peers[k]; p.up == [Question(p)] && p.down == [] && p.got == p.conn.server
    ensures var p := s.peers[k];
      var q := p.(conn := p.conn.(client := p.conn.client + 1), up := []);
      var peers := s.peers[k := q];
      var e := CheckVersion(cfg, s.core, Roles(peers), k, Some(p.client.ver), false);
      ServerTakes(cfg, s, k) == s.(core := e.core, peers := Post(peers, e.mail))
  {
    hide CheckVersion, Post, Save;
    var p := s.peers[k];
    assert p.up[1..] == [];
    assert Received(p) == p.(conn := p.conn.(client := p.conn.client + 1), up := []) by {
      assert p.down + [] == p.down;
    }
  }

  lemma TakeReceives<N>(cfg: Config<N>, s: System<N>, k: nat)
    requires cfg.saveInterval > 0 && k in s.peers && s.core.row.content.Plain? && s.peers[k].up != []
    ensures Enabled(s, ServerReceives(k)) && Take(cfg, s, ServerReceives(k)) == ServerTakes(cfg, s, k)
  {
    hide Joined, Left, ServerTakes, ClientTakes, Save, Loaded;
  }

  lemma TakeClient<N>(cfg: Config<N>, s: System<N>, k: nat)
    requires cfg.saveInterval > 0 && k in s.peers && s.core.row.content.Plain? && s.peers[k].down != []
    ensures Enabled(s, ClientReceives(k))
    ensures Take(cfg, s, ClientReceives(k)) == s.(peers := s.peers[k := ClientTakes(cfg, s.peers[k])])
  {
    hide Joined, Left, ServerTakes, ClientTakes, Save, Loaded;
  }

  lemma TakeReload<N>(cfg: Config<N>, s: System<N>, k: nat)
    requires cfg.saveInterval > 0 && k in s.peers && s.core.row.content.Plain?
    ensures Enabled(s, ClientReloads(k))
    ensures Take(cfg, s, ClientReloads(k)) == s.(peers := s.peers[k := s.peers[k].(client := Loaded(s.core.row))])
  {
    hide Joined, Left, ServerTakes, ClientTakes, Save, Loaded;
  }

  // ---- Delivery

  function Bodies(fs: seq<Frame<Msg>>): seq<Msg> {
    seq(|fs|, i requires 0 <= i < |fs| => fs[i].body)
  }

  ghost predicate NextInLine<N>(p: Peer<N>) {
    forall i :: 0 <= i < |p.down| ==> p.down[i].s == p.got + 1 + i
  }

  ghost function DeliveredTo<N>(cfg: Config<N>, p: Peer<N>): Peer<N> {
    p.(down := [], got := p.got + |p.down|, client := HearAll(cfg, p.client, Bodies(p.down)))
  }

  lemma DeliverOne<N>(cfg: Config<N>, p: Peer<N>)
    requires NextInLine(p) && p.down != []
    ensures NextInLine(ClientTakes(cfg, p)) && |ClientTakes(cfg, p).down| == |p.down| - 1
    ensures DeliveredTo(cfg, ClientTakes(cfg, p)) == DeliveredTo(cfg, p)
  {
    hide Hear;
    assert Bodies(p.down)[1..] == Bodies(p.down[1..]);
  }

  /** Frames that are next in line are all taken, one after the other. */
  lemma {:induction false} DeliverAll<N>(cfg: Config<N>, s: System<N>, k: nat)
    requires cfg.saveInterval > 0 && k in s.peers && s.core.row.content.Plain? && NextInLine(s.peers[k])
    ensures var steps := Takes<N>(k, |s.peers[k].down|);
      Run(cfg, s, steps) && After(cfg, s, steps) == s.(peers := s.peers[k := DeliveredTo(cfg, s.peers[k])])
    decreases |s.peers[k].down|
  {
    var p := s.peers[k];
    if p.down == [] {
      assert DeliveredTo(cfg, p) == p;
      assert s.peers[k := p] == s.peers;
    } else {
      hide Take, Enabled, ClientTakes, DeliveredTo, NextInLine;
      DeliverOne(cfg, p);
      TakeClient(cfg, s, k);
      OneStep(cfg, s, ClientReceives(k));
      var t := Take(cfg, s, ClientReceives(k));
      DeliverAll(cfg, t, k);
      RunThen(cfg, s, [ClientReceives(k)], Takes(k, |p.down| - 1));
      var q := ClientTakes(cfg, p);
      assert s.peers[k := q][k := DeliveredTo(cfg, q)] == s.peers[k := DeliveredTo(cfg, q)];
    }
  }

  // ---- One client

  /** The same connection but for the resend buffer. */
  ghost predicate SameButBuffer<N>(p: Peer<N>, q: Peer<N>) {
    q == p.(conn := p.conn.(lastTen := q.conn.lastTen))
  }

  /** The other participants are as they were, and so are the document's version and log. */
  ghost predicate OthersAsBefore<N>(s: System<N>, t: System<N>, k: nat) {
    && t.peers.Keys == s.peers.Keys && t.past == s.past
    && t.core.doc.version == s.core.doc.version && t.core.doc.diffs == s.core.doc.diffs
    && forall j :: j in s.peers && j != k ==> SameButBuffer(s.peers[j], t.peers[j])
  }

  ghost predicate CaughtUp<N>(s: System<N>, k: nat)
    requires k in s.peers
  {
    Drained(s.peers[k]) && s.peers[k].client.ver == s.core.doc.version
  }

  lemma {:induction false} HearLast<N>(cfg: Config<N>, c: Client<N>, msgs: seq<Msg>, last: Msg)
    ensures HearAll(cfg, c, msgs + [last]) == Hear(cfg, HearAll(cfg, c, msgs), last)
    decreases |msgs|
  {
    hide Hear;
    if msgs == [] {
      assert ([] + [last])[1..] == [];
    } else {
      assert (msgs + [last])[0] == msgs[0] && (msgs + [last])[1..] == msgs[1..] + [last];
      HearLast(cfg, Hear(cfg, c, msgs[0]), msgs[1..], last);
    }
  }

  /** What the answer is and does. */
  ghost predicate Suffices<N>(cfg: Config<N>, core: Core<N>, c: Client<N>, mail: seq<Msg>, after: Core<N>) {
    && after.doc.version == core.doc.version && after.doc.diffs == core.doc.diffs
    && if c.ver + |core.doc.diffs| >= core.doc.version then
         |mail| == core.doc.version - c.ver + 1 && HearAll(cfg, c, mail).ver == core.doc.version
       else mail == [Refetch] && after.row.version == core.doc.version
  }

  lemma AnswerSuffices<N>(cfg: Config<N>, past: Past<N>, core: Core<N>, roles: map<nat, Role>, k: nat, c: Client<N>)
    requires k in roles && ServerOk(cfg, past, core) && ClientOk(cfg, past, c)
    ensures var e := CheckVersion(cfg, core, roles, k, Some(c.ver), false);
      k in e.mail && c.ver <= core.doc.version && Suffices(cfg, core, c, e.mail[k], e.core)
  {
    var e := CheckVersion(cfg, core, roles, k, Some(c.ver), false);
    SaveKeepsServer(cfg, past, core, false);
    SaveLeavesTheDocument(cfg, core, false);
    hide Save, Missing, Fold, Last;
    if c.ver == core.doc.version {
      assert e.mail[k] == [ConfirmVersion(core.doc.version)];
      HearLast(cfg, c, [], ConfirmVersion(core.doc.version));
      assert [] + [ConfirmVersion(core.doc.version)] == e.mail[k];
    } else if c.ver + |core.doc.diffs| >= core.doc.version {
      CatchUpReachesTheServer(cfg, past.base, past.start, past.history, core, roles, k, c);
      var diffs := e.mail[k][..|e.mail[k]| - 1];
      assert e.mail[k] == diffs + [ConfirmVersion(core.doc.version)];
      HearLast(cfg, c, diffs, ConfirmVersion(core.doc.version));
    }
  }

  /** Question and answer: afterwards the answer is on its way, next in line, and nothing has happened to the others. */
  ghost predicate Answered<N>(cfg: Config<N>, s: System<N>, k: nat, t: System<N>)
    requires k in s.peers
  {
    var p := s.peers[k];
    && OthersAsBefore(s, t, k) && k in t.peers
    && var q := t.peers[k];
      && q.up == [] && NextInLine(q) && q.got + |q.down| == q.conn.server && q.client == p.client
      && p.client.ver <= s.core.doc.version && Suffices(cfg, s.core, p.client, Bodies(q.down), t.core)
  }

  lemma PostedAnswer<N>(p: Peer<N>, msgs: seq<Msg>)
    requires p.up == [] && p.down == [] && p.got == p.conn.server
    ensures var q := PostTo(p, msgs);
      q.up == [] && NextInLine(q) && q.got + |q.down| == q.conn.server && Bodies(q.down) == msgs && q.client == p.client
  {
  }

  lemma NothingPosted<N>(p: Peer<N>)
    ensures SameButBuffer(p, PostTo(p, []))
  {
  }

  lemma AnswerIsForOne<N>(cfg: Config<N>, core: Core<N>, roles: map<nat, Role>, k: nat, v: int, j: nat)
    requires k in roles && j in roles && j != k
    ensures var mail := CheckVersion(cfg, core, roles, k, Some(v), false).mail; j in mail && mail[j] == []
    ensures k in CheckVersion(cfg, core, roles, k, Some(v), false).mail
  {
    hide Missing, Save;
  }

  lemma PostAround<N>(peers: map<nat, Peer<N>>, k: nat, mail: map<nat, seq<Msg>>)
    requires k in peers && k in mail && forall j :: j in peers && j != k ==> j in mail && mail[j] == []
    ensures var after := Post(peers, mail);
      && after.Keys == peers.Keys && after[k] == PostTo(peers[k], mail[k])
      && forall j :: j in peers && j != k ==> SameButBuffer(peers[j], after[j])
  {
    forall j | j in peers && j != k ensures SameButBuffer(peers[j], Post(peers, mail)[j]) {
      NothingPosted(peers[j]);
    }
    hide PostTo, SameButBuffer;
  }

  lemma AnswerIsAnswered<N>(cfg: Config<N>, s: System<N>, k: nat, q: Peer<N>, core: Core<N>, mail: map<nat, seq<Msg>>)
    requires k in s.peers && k in mail && q.client == s.peers[k].client
    requires q.up == [] && q.down == [] && q.got == q.conn.server
    requires forall j :: j in s.peers && j != k ==> j in mail && mail[j] == []
    requires q.client.ver <= s.core.doc.version && Suffices(cfg, s.core, q.client, mail[k], core)
    ensures Answered(cfg, s, k, s.(core := core, peers := Post(s.peers[k := q], mail)))
  {
    PostAround(s.peers[k := q], k, mail);
    PostedAnswer(q, mail[k]);
    assert core.doc.version == s.core.doc.version && core.doc.diffs == s.core.doc.diffs;
    hide Post, PostTo, SameButBuffer, NextInLine, Bodies, HearAll, Suffices;
  }

  lemma GoodParts<N>(cfg: Config<N>, s: System<N>, k: nat)
    requires Inv(cfg, s) && k in s.peers
    ensures ServerOk(cfg, s.past, s.core) && ClientOk(cfg, s.past, s.peers[k].client)
  {
    PeerIsOk(cfg, s, k);
    hide ServerOk, UidsOk, OrderOk;
  }

  lemma QuestionIsAnswered<N>(cfg: Config<N>, s: System<N>, k: nat)
    requires cfg.saveInterval > 0 && Inv(cfg, s) && k in s.peers
    requires var p := s.peers[k]; p.up == [Question(p)] && p.down == [] && p.got == p.conn.server
    ensures Answered(cfg, s, k, ServerTakes(cfg, s, k))
  {
    hide Inv, CheckVersion, ServerTakes, ServerOk, ClientOk, Post, HearAll, Answered, Question, Suffices;
    GoodParts(cfg, s, k);
    Answers(cfg, s, k);
    var p := s.peers[k];
    var q := p.(conn := p.conn.(client := p.conn.client + 1), up := []);
    var roles := Roles(s.peers[k := q]);
    var e := CheckVersion(cfg, s.core, roles, k, Some(p.client.ver), false);
    AnswerSuffices(cfg, s.past, s.core, roles, k, p.client);
    forall j | j in s.peers && j != k ensures j in e.mail && e.mail[j] == [] {
      AnswerIsForOne(cfg, s.core, roles, k, p.client.ver, j);
    }
    AnswerIsAnswered(cfg, s, k, q, e.core, e.mail);
  }

  /** Delivering the answer, and reloading if it was a refetch. */
  lemma FollowsTheAnswer<N>(cfg: Config<N>, s: System<N>, k: nat, t: System<N>)
    requires cfg.saveInterval > 0 && k in s.peers && Answered(cfg, s, k, t) && t.core.row.content.Plain?
    ensures var steps := Takes(k, AnswerSize(s, k)) + if InReach(s, k) then [] else [ClientReloads(k)];
      Run(cfg, t, steps)
      && var u := After(cfg, t, steps); OthersAsBefore(s, u, k) && k in u.peers && CaughtUp(u, k)
  {
    hide Run, After, Take, Enabled, HearAll;
    var takes := Takes<N>(k, AnswerSize(s, k));
    assert |t.peers[k].down| == AnswerSize(s, k);
    DeliverAll(cfg, t, k);
    var u := After(cfg, t, takes);
    assert u == t.(peers := t.peers[k := DeliveredTo(cfg, t.peers[k])]);
    if InReach(s, k) {
      assert takes + [] == takes;
    } else {
      TakeReload(cfg, u, k);
      OneStep(cfg, u, ClientReloads(k));
      RunThen(cfg, t, takes, [ClientReloads(k)]);
    }
  }

  /** A drained client that asks and takes the answer, and reloads if and only if the log does not reach back to it, is
      at the server's version; nobody else is affected. */
  lemma AskingCatchesUp<N>(cfg: Config<N>, s: System<N>, k: nat)
    requires cfg.saveInterval > 0 && Inv(cfg, s) && k in s.peers && Drained(s.peers[k])
    ensures s.peers[k].client.ver <= s.core.doc.version
    ensures Run(cfg, s, CatchingUp(s, k))
    ensures var u := After(cfg, s, CatchingUp(s, k));
      OthersAsBefore(s, u, k) && k in u.peers && CaughtUp(u, k)
  {
    hide Inv, Run, After, Take, Enabled, ServerTakes, Answered, CaughtUp;
    RowIsReadable(cfg, s);
    Asks(cfg, s, k);
    var ask := ClientSends(k, Question(s.peers[k]));
    OneStep(cfg, s, ask);
    StepKeepsInv(cfg, s, ask);
    var asked := Take(cfg, s, ask);
    RowIsReadable(cfg, asked);
    TakeReceives(cfg, asked, k);
    OneStep(cfg, asked, ServerReceives(k));
    StepKeepsInv(cfg, asked, ServerReceives(k));
    QuestionIsAnswered(cfg, asked, k);
    var answered := Take(cfg, asked, ServerReceives(k));
    RowIsReadable(cfg, answered);
    AnsweredInOrder(cfg, asked, k, answered);
    FollowsTheAnswer(cfg, asked, k, answered);
    var rest := Takes(k, AnswerSize(asked, k)) + if InReach(asked, k) then [] else [ClientReloads(k)];
    RunThen(cfg, asked, [ServerReceives(k)], rest);
    RunThen(cfg, s, [ask], [ServerReceives(k)] + rest);
    assert CatchingUp(s, k) == [ask] + ([ServerReceives(k)] + rest);
  }

  lemma AnsweredInOrder<N>(cfg: Config<N>, s: System<N>, k: nat, t: System<N>)
    requires k in s.peers && Answered(cfg, s, k, t)
    ensures s.peers[k].client.ver <= s.core.doc.version
  {
  }

  // ---- All clients

  predicate Listed<N>(s: System<N>, ks: seq<nat>) {
    forall k :: k in ks ==> k in s.peers && s.peers[k].client.ver <= s.core.doc.version
  }

  /** The listed clients catch up one after the other. */
  function Round<N>(s: System<N>, ks: seq<nat>): seq<Convergence.Step<N>>
    requires Listed(s, ks)
  {
    if ks == [] then [] else CatchingUp(s, ks[0]) + Round(s, ks[1..])
  }

  lemma OneAsBefore<N>(s: System<N>, t: System<N>, k: nat, j: nat)
    requires OthersAsBefore(s, t, k) && j in s.peers && j != k
    ensures j in t.peers && SameButBuffer(s.peers[j], t.peers[j])
    ensures s.peers[j].client.ver <= s.core.doc.version ==> CatchingUp(t, j) == CatchingUp(s, j)
  {
  }

  /** What the listed clients will do has not changed. */
  lemma {:induction false} SameRound<N>(s: System<N>, t: System<N>, k: nat, ks: seq<nat>)
    requires OthersAsBefore(s, t, k) && k !in ks && Listed(s, ks)
    ensures Listed(t, ks) && Round(t, ks) == Round(s, ks)
  {
    hide OthersAsBefore, CatchingUp;
    forall j | j in ks ensures j in t.peers && t.peers[j].client.ver <= t.core.doc.version {
      OneAsBefore(s, t, k, j);
      VersionAsBefore(s, t, k);
    }
    if ks != [] {
      SameRound(s, t, k, ks[1..]);
      OneAsBefore(s, t, k, ks[0]);
    }
  }

  lemma VersionAsBefore<N>(s: System<N>, t: System<N>, k: nat)
    requires OthersAsBefore(s, t, k)
    ensures t.core.doc.version == s.core.doc.version && t.peers.Keys == s.peers.Keys && t.past == s.past
  {
  }

  ghost predicate AllDrained<N>(s: System<N>) {
    forall k :: k in s.peers ==> Drained(s.peers[k])
  }

  ghost predicate AllCaughtUp<N>(s: System<N>, ks: seq<nat>) {
    forall k :: k in ks ==> k in s.peers && CaughtUp(s, k)
  }

  /** Nothing is accepted, and whoever is not listed is as before. */
  ghost predicate RestAsBefore<N>(s: System<N>, t: System<N>, ks: seq<nat>) {
    && t.past == s.past && t.core.doc.version == s.core.doc.version && t.core.doc.diffs == s.core.doc.diffs
    && t.peers.Keys == s.peers.Keys
    && forall k :: k in s.peers && k !in ks ==> SameButBuffer(s.peers[k], t.peers[k])
  }

  lemma StillDrained<N>(s: System<N>, t: System<N>, k: nat)
    requires AllDrained(s) && OthersAsBefore(s, t, k) && k in t.peers && CaughtUp(t, k)
    ensures AllDrained(t)
  {
    forall j | j in t.peers ensures Drained(t.peers[j]) {
      assert j != k ==> SameButBuffer(s.peers[j], t.peers[j]);
    }
  }

  lemma InTime<N>(cfg: Config<N>, s: System<N>, ks: seq<nat>)
    requires Inv(cfg, s) && forall k :: k in ks ==> k in s.peers
    ensures Listed(s, ks)
  {
    forall k | k in ks ensures s.peers[k].client.ver <= s.core.doc.version {
      GoodParts(cfg, s, k);
      hide Inv, Fold, Last;
    }
  }

  lemma FirstAndRest<N>(s: System<N>, t: System<N>, u: System<N>, ks: seq<nat>)
    requires ks != [] && OthersAsBefore(s, t, ks[0]) && ks[0] in t.peers && CaughtUp(t, ks[0]) && ks[0] !in ks[1..]
    requires RestAsBefore(t, u, ks[1..]) && AllCaughtUp(u, ks[1..])
    ensures RestAsBefore(s, u, ks) && AllCaughtUp(u, ks)
  {
    forall k | k in ks ensures k in u.peers && CaughtUp(u, k) {
      if k !in ks[1..] {
        assert k == ks[0] && SameButBuffer(t.peers[k], u.peers[k]);
      }
    }
    forall k | k in s.peers && k !in ks ensures SameButBuffer(s.peers[k], u.peers[k]) {
      assert k != ks[0] && SameButBuffer(s.peers[k], t.peers[k]) && SameButBuffer(t.peers[k], u.peers[k]);
    }
  }

  lemma DrainedOne<N>(s: System<N>, k: nat)
    requires AllDrained(s) && k in s.peers
    ensures Drained(s.peers[k])
  {
  }

  lemma NoneListed<N>(cfg: Config<N>, s: System<N>)
    requires cfg.saveInterval > 0
    ensures Run(cfg, s, []) && After(cfg, s, []) == s && RestAsBefore(s, s, []) && AllCaughtUp(s, [])
    ensures Listed(s, []) && Round(s, []) == []
  {
  }

  lemma SplitList<N>(s: System<N>, ks: seq<nat>)
    requires ks != [] && Distinct(ks) && Listed(s, ks)
    ensures Listed(s, ks[1..]) && Distinct(ks[1..]) && ks[0] !in ks[1..]
    ensures ks[0] in s.peers && s.peers[ks[0]].client.ver <= s.core.doc.version
    ensures Round(s, ks) == CatchingUp(s, ks[0]) + Round(s, ks[1..])
  {
    hide CatchingUp;
  }

  /** Nothing but questions, answers and reloads of clients out of reach, in whatever order the clients are taken:
      everyone listed is then at the server's version, everyone else is as before. */
  lemma {:induction false} EveryoneCatchesUp<N>(cfg: Config<N>, s: System<N>, ks: seq<nat>)
    requires cfg.saveInterval > 0 && Inv(cfg, s) && AllDrained(s) && Distinct(ks) && Listed(s, ks)
    ensures Run(cfg, s, Round(s, ks))
    ensures var u := After(cfg, s, Round(s, ks)); Inv(cfg, u) && RestAsBefore(s, u, ks) && AllCaughtUp(u, ks)
    decreases |ks|
  {
    hide *;
    if ks == [] {
      NoneListed(cfg, s);
    } else {
      var k := ks[0];
      SplitList(s, ks);
      DrainedOne(s, k);
      AskingCatchesUp(cfg, s, k);
      var first := CatchingUp(s, k);
      var t := After(cfg, s, first);
      RunKeepsInv(cfg, s, first);
      StillDrained(s, t, k);
      SameRound(s, t, k, ks[1..]);
      EveryoneCatchesUp(cfg, t, ks[1..]);
      RunThen(cfg, s, first, Round(s, ks[1..]));
      FirstAndRest(s, t, After(cfg, s, Round(s, ks)), ks);
    }
  }

  lemma LevelIsEqual<N>(cfg: Config<N>, past: Past<N>, core: Core<N>, c: Client<N>)
    requires ServerOk(cfg, past, core) && ClientOk(cfg, past, c) && c.ver == core.doc.version
    ensures Some(c.node) == core.node
  {
    assert past.history[..|past.history|] == past.history;
    hide Fold, Last, SaveInv, RowOk;
  }

  lemma LevelMeansEqual<N>(cfg: Config<N>, s: System<N>, ks: seq<nat>)
    requires Inv(cfg, s) && AllCaughtUp(s, ks)
    ensures forall k :: k in ks ==> Some(s.peers[k].client.node) == s.core.node
  {
    hide Inv, ServerOk, ClientOk;
    forall k | k in ks ensures Some(s.peers[k].client.node) == s.core.node {
      GoodParts(cfg, s, k);
      LevelIsEqual(cfg, s.past, s.core, s.peers[k].client);
    }
  }

  /** From any reachable state whose links are drained, whichever clients catch up in whichever order get to the
      server's version and document, within the reach of the log by the answer alone. */
  lemma DrainedRunsCatchUp<N>(cfg: Config<N>, base: N, row: Doc<N>, images: ImageRows,
                              steps: seq<Convergence.Step<N>>, ks: seq<nat>)
    requires cfg.saveInterval > 0 && Stored(cfg, base, row) && Run(cfg, Start(base, row, images), steps)
    requires var s := After(cfg, Start(base, row, images), steps);
      AllDrained(s) && Distinct(ks) && forall k :: k in ks ==> k in s.peers
    ensures var s := After(cfg, Start(base, row, images), steps);
      && Listed(s, ks)
      && Run(cfg, Start(base, row, images), steps + Round(s, ks))
      && var u := After(cfg, Start(base, row, images), steps + Round(s, ks));
         && RestAsBefore(s, u, ks) && AllCaughtUp(u, ks)
         && forall k :: k in ks ==> Some(u.peers[k].client.node) == u.core.node
  {
    hide Inv, Run, After, Stored, Start, AllDrained, CaughtUp, Round, Distinct, RestAsBefore, Listed;
    var start := Start(base, row, images);
    StartIsOk(cfg, base, row, images);
    RunKeepsInv(cfg, start, steps);
    var s := After(cfg, start, steps);
    InTime(cfg, s, ks);
    EveryoneCatchesUp(cfg, s, ks);
    RunThen(cfg, start, steps, Round(s, ks));
    LevelMeansEqual(cfg, After(cfg, s, Round(s, ks)), ks);
  }
}
