/** A client whose diff is rejected gets its hands free: in every run it comes to hear of it. */
module Rejections {
  import opened Prelude
  import opened Access
  import opened Comments
  import opened Link
  import opened Documents
  import opened Session
  import opened Replay
  import opened Saving
  import opened Convergence
  import opened Liveness
  import opened CatchUp

  ghost predicate IsWaitingFor<N>(c: Client<N>, rid: string) {
    c.pending.Some? && c.pending.value.rid == Some(rid)
  }

  /** Taking what is under way in its order, the client comes to the rejection, with no gap before it. */
  ghost predicate Frees(got: int, down: seq<Frame<Msg>>, rid: string)
    decreases |down|
  {
    down != [] &&
    if down[0].s == got + 1 then down[0].body == RejectDiff(rid) || Frees(got + 1, down[1..], rid)
    else down[0].s <= got && Frees(got, down[1..], rid)
  }

  lemma {:induction false} FreesWithMore(got: int, down: seq<Frame<Msg>>, more: seq<Frame<Msg>>, rid: string)
    requires Frees(got, down, rid)
    ensures Frees(got, down + more, rid)
    decreases |down|
  {
    assert (down + more)[0] == down[0] && (down + more)[1..] == down[1..] + more;
    if down[0].s != got + 1 {
      FreesWithMore(got, down[1..], more, rid);
    } else if down[0].body != RejectDiff(rid) {
      FreesWithMore(got + 1, down[1..], more, rid);
    }
  }

  /** What is next in line is taken, repetitions are passed over, and then the rejection is next. */
  lemma {:induction false} LineFrees(got: int, line: seq<Frame<Msg>>, again: seq<Frame<Msg>>, last: Frame<Msg>,
                                     rid: string)
    requires forall i :: 0 <= i < |line| ==> line[i].s == got + 1 + i
    requires forall i :: 0 <= i < |again| ==> again[i].s <= got + |line|
    requires last.s == got + |line| + 1 && last.body == RejectDiff(rid)
    ensures Frees(got, line + again + [last], rid)
    decreases |line|, |again|
  {
    var all := line + again + [last];
    if line != [] {
      assert all[0] == line[0] && all[1..] == line[1..] + again + [last];
      LineFrees(got + 1, line[1..], again, last, rid);
    } else if again != [] {
      assert all[0] == again[0] && all[1..] == line + again[1..] + [last];
      LineFrees(got, line, again[1..], last, rid);
    } else {
      assert all == [last];
    }
  }

  /** The frame at the head of the queue carries a diff and has crossed a message of the server's that the resend buffer
      still holds. */
  ghost predicate HasCrossed<N>(p: Peer<N>, d: Diff) {
    && p.up != [] && p.up[0].Counted? && p.up[0].c == Some(p.conn.client + 1) && p.up[0].s.Some?
    && p.up[0].body == UpDiff(d) && d.rid.Some?
    && p.up[0].s.value < p.conn.server && p.conn.server - p.up[0].s.value <= |p.conn.lastTen|
  }

  lemma RepeatsThenRejects<N>(p: Peer<N>, d: Diff)
    requires HasCrossed(p, d)
    ensures var q := Received(p);
      var from := p.up[0].s.value;
      var again := ResendFrames(p.conn.(client := p.conn.client + 1), from, Refetch);
      && q.down == p.down + again && q.conn.server == p.conn.server && q.got == p.got
      && forall i :: 0 <= i < |again| ==> again[i].s <= p.conn.server
  {
  }

  lemma RejectionIsNext<N>(cfg: Config<N>, s: System<N>, k: nat, d: Diff)
    requires cfg.saveInterval > 0 && k in s.peers && HasCrossed(s.peers[k], d)
    requires NextInLine(s.peers[k]) && s.peers[k].got + |s.peers[k].down| == s.peers[k].conn.server
    ensures var t := ServerTakes(cfg, s, k);
      k in t.peers && t.peers[k].got == s.peers[k].got && Frees(t.peers[k].got, t.peers[k].down, d.rid.value)
  {
    var p := s.peers[k];
    var q := Received(p);
    RepeatsThenRejects(p, d);
    RejectionIsPosted(cfg, s, k, d);
    var again := ResendFrames(p.conn.(client := p.conn.client + 1), p.up[0].s.value, Refetch);
    var last := Frame(q.conn.client, q.conn.server + 1, RejectDiff(d.rid.value));
    LineFrees(p.got, p.down, again, last, d.rid.value);
    hide ServerTakes, Received, ResendFrames, Frees;
  }

  lemma RejectionIsPosted<N>(cfg: Config<N>, s: System<N>, k: nat, d: Diff)
    requires cfg.saveInterval > 0 && k in s.peers && HasCrossed(s.peers[k], d)
    ensures var t := ServerTakes(cfg, s, k);
      var q := Received(s.peers[k]);
      && k in t.peers && t.peers[k].got == q.got
      && t.peers[k].down == q.down + [Frame(q.conn.client, q.conn.server + 1, RejectDiff(d.rid.value))]
  {
    hide Save, Resend, ResendFrames, Overflows;
  }

  // ---- What the steps of others do

  /** The queue has only grown at its end. */
  ghost predicate Grown<N>(p: Peer<N>, q: Peer<N>) {
    q.got == p.got && q.client == p.client && |p.down| <= |q.down| && q.down[..|p.down|] == p.down
  }

  lemma MailGrows<N>(peers: map<nat, Peer<N>>, mail: map<nat, seq<Msg>>, k: nat)
    requires k in peers
    ensures k in Post(peers, mail) && Grown(peers[k], Post(peers, mail)[k])
  {
  }

  lemma OwnFrameGrows<N>(cfg: Config<N>, s: System<N>, k: nat)
    requires cfg.saveInterval > 0 && k in s.peers && s.peers[k].up != []
    ensures var t := ServerTakes(cfg, s, k); k in t.peers && Grown(s.peers[k], t.peers[k])
  {
    var p := s.peers[k];
    var s' := s.(core := Resaved(cfg, s.core, p.conn, p.up[0]), peers := s.peers[k := Received(p)]);
    assert Grown(p, Received(p)) by { hide ReceiveFrames, Receive; }
    HandlingExtends(cfg, s', k, Judge(p.conn, p.up[0]), k);
    var t := ServerTakes(cfg, s, k);
    hide Handles, Received, Resaved;
    GrownTwice(p, Received(p), t.peers[k]);
  }

  lemma GrownTwice<N>(p: Peer<N>, q: Peer<N>, r: Peer<N>)
    requires Grown(p, q) && Grown(q, r)
    ensures Grown(p, r)
  {
    assert r.down[..|p.down|] == q.down[..|p.down|] by {
      assert r.down[..|q.down|][..|p.down|] == r.down[..|p.down|];
    }
  }

  lemma StepGrows<N>(cfg: Config<N>, s: System<N>, step: Convergence.Step<N>, k: nat)
    requires cfg.saveInterval > 0 && Inv(cfg, s) && Enabled(s, step) && s.core.row.content.Plain? && k in s.peers
    requires LeavesAlone(step, k) && step != ClientReceives(k)
    ensures var t := Take(cfg, s, step); k in t.peers && Grown(s.peers[k], t.peers[k])
  {
    EnabledHas(s, step, k);
    hide Inv, Take, Enabled, LeavesAlone, ServerTakes;
    if step == ServerReceives(k) {
      TakeReceives(cfg, s, k);
      OwnFrameGrows(cfg, s, k);
    } else {
      StepExtends(cfg, s, step, k);
    }
  }

  // ---- Every run

  ghost predicate GetsFree<N>(p: Peer<N>, rid: string) {
    IsWaitingFor(p.client, rid) ==> Frees(p.got, p.down, rid)
  }

  lemma TakingGetsFree<N>(cfg: Config<N>, p: Peer<N>, rid: string)
    requires p.down != [] && GetsFree(p, rid)
    ensures GetsFree(ClientTakes(cfg, p), rid)
  {
    forall d: Diff ensures Absorb(cfg, p.client, d).pending == p.client.pending {
    }
    hide Absorb;
  }

  lemma GrowingGetsFree<N>(p: Peer<N>, q: Peer<N>, rid: string)
    requires GetsFree(p, rid) && Grown(p, q)
    ensures GetsFree(q, rid)
  {
    if IsWaitingFor(p.client, rid) {
      assert q.down == p.down + q.down[|p.down|..];
      FreesWithMore(p.got, p.down, q.down[|p.down|..], rid);
    }
  }

  lemma {:induction false} RunGetsFree<N>(cfg: Config<N>, s: System<N>, steps: seq<Convergence.Step<N>>, k: nat,
                                          rid: string)
    requires cfg.saveInterval > 0 && Inv(cfg, s) && Run(cfg, s, steps) && k in s.peers
    requires GetsFree(s.peers[k], rid) && AllLeaveAlone(steps, k)
    ensures var t := After(cfg, s, steps); k in t.peers && GetsFree(t.peers[k], rid)
    decreases |steps|
  {
    if steps != [] {
      EnabledHas(s, steps[0], k);
      hide Inv, Take, Enabled, GetsFree, Grown, LeavesAlone;
      assert LeavesAlone(steps[0], k);
      var t := Take(cfg, s, steps[0]);
      StepKeepsInv(cfg, s, steps[0]);
      if steps[0] == ClientReceives(k) {
        TakeClient(cfg, s, k);
        TakingGetsFree(cfg, s.peers[k], rid);
      } else {
        StepGrows(cfg, s, steps[0], k);
        GrowingGetsFree(s.peers[k], t.peers[k], rid);
      }
      RunGetsFree(cfg, t, steps[1..], k, rid);
    }
  }

  /** In every run: the server comes to a diff that has crossed one of its messages. Whatever the others do from then
      on, once the client has taken what it was sent it no longer waits for that diff, and it may send another. */
  lemma RejectedInEveryRun<N>(cfg: Config<N>, base: N, row: Doc<N>, images: ImageRows,
                              steps: seq<Convergence.Step<N>>, k: nat, d: Diff, after: seq<Convergence.Step<N>>)
    requires cfg.saveInterval > 0 && Stored(cfg, base, row) && Run(cfg, Start(base, row, images), steps)
    requires AllLeaveAlone(after, k)
    requires var s := After(cfg, Start(base, row, images), steps);
      && k in s.peers && HasCrossed(s.peers[k], d)
      && NextInLine(s.peers[k]) && s.peers[k].got + |s.peers[k].down| == s.peers[k].conn.server
      && Run(cfg, s, [ServerReceives(k)] + after)
    ensures var s := After(cfg, Start(base, row, images), steps);
      var t := After(cfg, s, [ServerReceives(k)] + after);
      k in t.peers && (t.peers[k].down == [] ==> !IsWaitingFor(t.peers[k].client, d.rid.value))
  {
    hide Inv, Stored, Start, Take, HasCrossed, ServerTakes, AllLeaveAlone, NextInLine;
    var start := Start(base, row, images);
    StartIsOk(cfg, base, row, images);
    RunKeepsInv(cfg, start, steps);
    var s := After(cfg, start, steps);
    RowIsReadable(cfg, s);
    CrossedIsThere(s.peers[k], d);
    TakeReceives(cfg, s, k);
    StepKeepsInv(cfg, s, ServerReceives(k));
    RejectionIsNext(cfg, s, k, d);
    var t := Take(cfg, s, ServerReceives(k));
    assert ([ServerReceives(k)] + after)[0] == ServerReceives(k) && ([ServerReceives(k)] + after)[1..] == after;
    RunGetsFree(cfg, t, after, k, d.rid.value);
  }

  lemma CrossedIsThere<N>(p: Peer<N>, d: Diff)
    requires HasCrossed(p, d)
    ensures p.up != [] && d.rid.Some?
  {
  }
}
