/** What the counters and the resend buffer achieve over whole runs of one connection. */
module LinkRun {
  import opened Prelude
  import opened Link

  // ---- Exactly-once, in-order consumption of client messages

  datatype Event<P, M> = In(msg: Incoming<M>) | Out(p: P)

  function Next<P, M>(k: Conn<P>, e: Event<P, M>, n: Notices<P>): Conn<P> {
    match e
    case In(msg) => Receive(k, msg, n)
    case Out(p) => Send(k, p)
  }

  function Run<P, M>(k: Conn<P>, es: seq<Event<P, M>>, n: Notices<P>): Conn<P>
    decreases |es|
  {
    if es == [] then k else Run(Next(k, es[0], n), es[1..], n)
  }

  /** The verdicts that consume a message, in the order they were reached. */
  function Consumed<P, M>(k: Conn<P>, es: seq<Event<P, M>>, n: Notices<P>): seq<Verdict<M>>
    decreases |es|
  {
    if es == [] then []
    else
      var rest := Consumed(Next(k, es[0], n), es[1..], n);
      if Consumes(k, es[0])
      then [Judge(k, es[0].msg)] + rest
      else rest
  }

  /** Reference: pick each message the first time its number is the next one due. Knows nothing of the server side. */
  function InOrder<P, M>(due: int, es: seq<Event<P, M>>): seq<M>
    decreases |es|
  {
    if es == [] then []
    else match es[0]
      case In(Counted(Some(c), Some(_), body)) =>
        if c == due then [body] + InOrder(due + 1, es[1..]) else InOrder(due, es[1..])
      case _ => InOrder(due, es[1..])
  }

  predicate Consumes<P, M>(k: Conn<P>, e: Event<P, M>) {
    e.In? && (Judge(k, e.msg).Handled? || Judge(k, e.msg).Rejected?)
  }

  lemma ConsumptionMovesClient<P, M>(k: Conn<P>, e: Event<P, M>, n: Notices<P>)
    ensures Next(k, e, n).client == k.client + if Consumes(k, e) then 1 else 0
    ensures Consumes(k, e) <==> e.In? && e.msg.Counted? && e.msg.s.Some? && e.msg.c == Some(k.client + 1)
    ensures Consumes(k, e) ==> Judge(k, e.msg).c == k.client + 1 && Judge(k, e.msg).body == e.msg.body
  {
  }

  /** Whatever arrives (lost, repeated, reordered or malformed) and whatever the server sends in between, the
      consumed messages are numbered client+1, client+2, ... and are the reference selection. */
  lemma {:induction false} ExactlyOnce<P, M>(k: Conn<P>, es: seq<Event<P, M>>, n: Notices<P>)
    ensures Run(k, es, n).client == k.client + |Consumed(k, es, n)|
    ensures |InOrder(k.client + 1, es)| == |Consumed(k, es, n)|
    ensures forall i :: 0 <= i < |Consumed(k, es, n)| ==>
      var v := Consumed(k, es, n)[i];
      (v.Handled? || v.Rejected?) && v.c == k.client + 1 + i && v.body == InOrder(k.client + 1, es)[i]
    decreases |es|
  {
    if es != [] {
      var k' := Next(k, es[0], n);
      ConsumptionMovesClient(k, es[0], n);
      ExactlyOnce(k', es[1..], n);
      var rest := Consumed(k', es[1..], n);
      if Consumes(k, es[0]) {
        assert Consumed(k, es, n) == [Judge(k, es[0].msg)] + rest;
        assert InOrder(k.client + 1, es) == [es[0].msg.body] + InOrder(k'.client + 1, es[1..]);
      } else {
        assert Consumed(k, es, n) == rest;
        assert InOrder(k.client + 1, es) == InOrder(k'.client + 1, es[1..]);
      }
    }
  }

  /** What becomes of a frame, told from its counters: one that is next in turn is taken and moves the client counter,
      and goes to its handler only if it has not crossed a message of the server's; all else leaves that counter
      alone. */
  lemma FrameIs<P, M>(k: Conn<P>, msg: Incoming<M>, n: Notices<P>)
    ensures var after, frames, verdict := Receive(k, msg, n), ReceiveFrames(k, msg, n), Judge<P, M>(k, msg);
      match msg
      case Empty => after == k && frames == [] && verdict == Ignored
      case Ping => after == k && frames == [] && verdict == Pong
      case ResendRequest(from) =>
        after == Resend(k, from, n.refetch) && frames == ResendFrames(k, from, n.refetch) && verdict == Resent
      case Counted(None, None, _) =>
        after == Send(k, n.denied) && frames == [Stamp(k, n.denied)] && verdict == Denied
      case Counted(None, Some(_), _) => after == k && frames == [] && verdict == Crashed
      case Counted(Some(_), None, _) => after == k && frames == [] && verdict == Crashed
      case Counted(Some(c), Some(s), body) =>
        && (c <= k.client ==> after == k && frames == [] && verdict == Ignored)
        && (c > k.client + 1 ==> after == k && frames == [] && verdict == Crashed)
        && (c == k.client + 1 && s >= k.server ==>
              after == k.(client := c) && frames == [] && verdict == Handled(c, body))
        && (c == k.client + 1 && s < k.server ==>
              && after == Resend(k.(client := c), s, n.refetch)
              && frames == ResendFrames(k.(client := c), s, n.refetch) && verdict == Rejected(c, body))
  {
    hide Resend, ResendFrames;
  }

  /** A send is numbered one higher and kept last in a buffer of ten. */
  lemma SendIs<P>(k: Conn<P>, p: P)
    ensures var after := Send(k, p);
      && after.server == k.server + 1 && after.client == k.client
      && Stamp(k, p).s == after.server && Stamp(k, p).c == k.client && Stamp(k, p).body == p
      && (|k.lastTen| < 10 ==> after.lastTen == k.lastTen + [p])
      && (|k.lastTen| >= 10 ==> |after.lastTen| == 10 && after.lastTen == k.lastTen[|k.lastTen| - 9..] + [p])
  {
  }

  // ---- The logical stream behind the rewinding counter

  /** `stream[i]` is the message numbered i+1; `last` is where the most recent resend started. */
  datatype Tape<P> = Tape(stream: seq<P>, last: int)

  /** Down to this number the end of the buffer is the end of the stream; further down it holds repetitions. */
  ghost function Floor<P>(t: Tape<P>): int {
    if |t.stream| - RING_SIZE > t.last then |t.stream| - RING_SIZE else t.last
  }

  ghost predicate Aligned<P>(k: Conn<P>, t: Tape<P>) {
    && |k.lastTen| <= RING_SIZE
    && k.server == |t.stream|
    && 0 <= t.last <= k.server
    && k.server - Floor(t) <= |k.lastTen|
    && (k.server <= |k.lastTen| || |k.lastTen| == RING_SIZE)
    && Last(k.lastTen, k.server - Floor(t)) == Last(t.stream, k.server - Floor(t))
  }

  ghost predicate Truncates<P>(k: Conn<P>, from: int) {
    k.server - from > |k.lastTen|
  }

  ghost function TapeSend<P>(t: Tape<P>, p: P): Tape<P> {
    Tape(t.stream + [p], t.last)
  }

  ghost function TapeResend<P>(k: Conn<P>, t: Tape<P>, from: int, refetch: P): Tape<P>
    requires 0 <= from <= |t.stream|
  {
    Tape(if Truncates(k, from) then t.stream[..from] + [refetch] else t.stream, from)
  }

  lemma SendStaysAligned<P>(k: Conn<P>, t: Tape<P>, p: P)
    requires Aligned(k, t)
    ensures Aligned(Send(k, p), TapeSend(t, p))
    ensures Stamp(k, p).s == |t.stream| + 1 && Stamp(k, p).body == TapeSend(t, p).stream[Stamp(k, p).s - 1]
  {
    hide Last;
    var m := k.server - Floor(t);
    var m' := k.server + 1 - Floor(TapeSend(t, p));
    LastOfLonger(k.lastTen, [p], m);
    LastOfLonger(t.stream, [p], m);
    LastOfLast(k.lastTen + [p], m + 1, m');
    LastOfLast(t.stream + [p], m + 1, m');
    LastOfLast(k.lastTen + [p], RING_SIZE, m');
  }

  lemma LastIsTheTail<P>(stream: seq<P>, from: nat)
    requires from <= |stream|
    ensures Last(stream, |stream| - from) == stream[from..]
  {
  }

  lemma LastNone<P>(stream: seq<P>)
    ensures Last(stream, 0) == []
  {
  }

  lemma BodiesAreTheTail<P>(k: Conn<P>, t: Tape<P>, from: int, refetch: P)
    requires Aligned(k, t)
    requires t.last <= from < k.server
    ensures var t' := TapeResend(k, t, from, refetch);
      ResendBodies(k, from, refetch) == Last(t'.stream, |t'.stream| - from)
    ensures |ResendBodies(k, from, refetch)| <= RING_SIZE
  {
    hide Last;
    if Truncates(k, from) {
      LastOfLonger(t.stream[..from], [refetch], 0);
      LastNone(t.stream[..from]);
      assert [] + [refetch] == [refetch];
    } else {
      LastOfLast(k.lastTen, k.server - Floor(t), k.server - from);
      LastOfLast(t.stream, k.server - Floor(t), k.server - from);
    }
  }

  /** A resend from `from` puts exactly the logical messages from+1 .. server back on the wire, numbered as before,
      unless it cuts the stream at `from` and appends the refetch notice. */
  lemma ResendStaysAligned<P>(k: Conn<P>, t: Tape<P>, from: int, refetch: P)
    requires Aligned(k, t)
    requires t.last <= from < k.server
    ensures Aligned(Resend(k, from, refetch), TapeResend(k, t, from, refetch))
    ensures var t' := TapeResend(k, t, from, refetch);
      var fs := ResendFrames(k, from, refetch);
      && |fs| == |t'.stream| - from
      && forall i :: 0 <= i < |fs| ==> fs[i] == Frame(k.client, from + 1 + i, t'.stream[from + i])
  {
    hide Last;
    var t' := TapeResend(k, t, from, refetch);
    var bodies := ResendBodies(k, from, refetch);
    BodiesAreTheTail(k, t, from, refetch);
    assert Floor(t') == from;
    LastOfLonger(k.lastTen, bodies, 0);
    LastOfLast(k.lastTen + bodies, RING_SIZE, |bodies|);
    LastIsTheTail(t'.stream, from);
  }

  /** The entry just below the aligned part differs from the message a faithful buffer would hold there. */
  ghost predicate Sharp<P>(k: Conn<P>, t: Tape<P>) {
    && Aligned(k, t)
    && Distinct(t.stream)
    && var m := k.server - Floor(t);
      Floor(t) > 0 && |k.lastTen| > m ==> k.lastTen[|k.lastTen| - 1 - m] != t.stream[Floor(t) - 1]
  }

  lemma SendStaysSharp<P>(k: Conn<P>, t: Tape<P>, p: P)
    requires Sharp(k, t) && p !in t.stream
    ensures Sharp(Send(k, p), TapeSend(t, p))
  {
    hide Last;
    SendStaysAligned(k, t, p);
    var k', t' := Send(k, p), TapeSend(t, p);
    var m' := k'.server - Floor(t');
    if Floor(t') > 0 && |k'.lastTen| > m' {
      LastIndex(k.lastTen + [p], RING_SIZE, m');
    }
  }

  lemma CutKeepsDistinct<P>(stream: seq<P>, from: nat, refetch: P)
    requires Distinct(stream) && from <= |stream| && refetch !in stream
    ensures Distinct(stream[..from] + [refetch])
  {
    var cut := stream[..from] + [refetch];
    assert forall i :: 0 <= i < from ==> cut[i] == stream[i];
  }

  lemma ResendStaysSharp<P>(k: Conn<P>, t: Tape<P>, from: int, refetch: P)
    requires Sharp(k, t) && t.last <= from < k.server
    requires Truncates(k, from) ==> refetch !in t.stream
    ensures Sharp(Resend(k, from, refetch), TapeResend(k, t, from, refetch))
  {
    hide Last;
    var k', t' := Resend(k, from, refetch), TapeResend(k, t, from, refetch);
    ResendStaysAligned(k, t, from, refetch);
    if Truncates(k, from) {
      CutKeepsDistinct(t.stream, from, refetch);
    }
    var bodies := ResendBodies(k, from, refetch);
    BodiesAreTheTail(k, t, from, refetch);
    assert Floor(t') == from && k'.server - from == |bodies|;
    if from > 0 && |k'.lastTen| > |bodies| {
      var b := k.lastTen + bodies;
      LastIndex(b, RING_SIZE, |bodies|);
      assert b[|b| - 1 - |bodies|] == k.lastTen[|k.lastTen| - 1];
      LastIndex(k.lastTen, k.server - Floor(t), 0);
      LastIndex(t.stream, k.server - Floor(t), 0);
    }
  }

  /** With distinguishable messages, a resend that finds enough entries is faithful exactly from the floor upward:
      asking again from below an earlier resend returns repetitions instead of the missing messages. */
  lemma ResendFaithfulIff<P>(k: Conn<P>, t: Tape<P>, from: int, refetch: P)
    requires Sharp(k, t) && 0 <= from < k.server && !Truncates(k, from)
    ensures ResendBodies(k, from, refetch) == t.stream[from..] <==> t.last <= from
  {
    hide Last;
    LastIsTheTail(t.stream, from);
    if t.last <= from {
      BodiesAreTheTail(k, t, from, refetch);
    } else {
      var m := k.server - Floor(t);
      LastIndex(k.lastTen, k.server - from, m);
      LastIndex(t.stream, k.server - from, m);
    }
  }

  // ---- The same for every history of a connection

  datatype Use<P> = Sends(p: P) | Resends(from: int)

  ghost function TapeUse<P>(k: Conn<P>, t: Tape<P>, u: Use<P>, refetch: P): Tape<P> {
    match u
    case Sends(p) => TapeSend(t, p)
    case Resends(from) => if 0 <= from <= |t.stream| then TapeResend(k, t, from, refetch) else t
  }

  function ConnUse<P>(k: Conn<P>, u: Use<P>, refetch: P): Conn<P> {
    match u
    case Sends(p) => Send(k, p)
    case Resends(from) => Resend(k, from, refetch)
  }

  /** Payloads are new when they are sent, the refetch notice of a cut included, and no resend starts below the one
      before. */
  ghost predicate Usual<P>(k: Conn<P>, t: Tape<P>, us: seq<Use<P>>, refetch: P)
    decreases |us|
  {
    us != [] ==>
      && (match us[0]
          case Sends(p) => p !in t.stream
          case Resends(from) => t.last <= from < k.server && (Truncates(k, from) ==> refetch !in t.stream))
      && Usual(ConnUse(k, us[0], refetch), TapeUse(k, t, us[0], refetch), us[1..], refetch)
  }

  ghost function UseAll<P>(k: Conn<P>, t: Tape<P>, us: seq<Use<P>>, refetch: P): (Conn<P>, Tape<P>)
    decreases |us|
  {
    if us == [] then (k, t)
    else UseAll(ConnUse(k, us[0], refetch), TapeUse(k, t, us[0], refetch), us[1..], refetch)
  }

  lemma UseStaysSharp<P>(k: Conn<P>, t: Tape<P>, us: seq<Use<P>>, refetch: P)
    requires us != [] && Sharp(k, t) && Usual(k, t, us, refetch)
    ensures Sharp(ConnUse(k, us[0], refetch), TapeUse(k, t, us[0], refetch))
  {
    match us[0]
    case Sends(p) => SendStaysSharp(k, t, p);
    case Resends(from) => ResendStaysSharp(k, t, from, refetch);
    hide Send, Resend, TapeSend, TapeResend, Distinct, Last;
  }

  lemma {:induction false} RunStaysSharp<P>(k: Conn<P>, t: Tape<P>, us: seq<Use<P>>, refetch: P)
    requires Sharp(k, t) && Usual(k, t, us, refetch)
    ensures Sharp(UseAll(k, t, us, refetch).0, UseAll(k, t, us, refetch).1)
    decreases |us|
  {
    hide Sharp, ConnUse, TapeUse;
    if us != [] {
      UseStaysSharp(k, t, us, refetch);
      RunStaysSharp(ConnUse(k, us[0], refetch), TapeUse(k, t, us[0], refetch), us[1..], refetch);
    }
  }

  /** After any sends and any resends none of which went below the one before, the next resend is faithful exactly when
      it does not either. */
  lemma NextResendFaithfulIff<P>(client: int, us: seq<Use<P>>, refetch: P, from: int)
    requires Usual(Conn(0, client, []), Tape([], 0), us, refetch)
    ensures var (k, t) := UseAll(Conn(0, client, []), Tape([], 0), us, refetch);
      && k.server == |t.stream|
      && (0 <= from < k.server && !Truncates(k, from) ==>
            (ResendBodies(k, from, refetch) == t.stream[from..] <==> t.last <= from))
  {
    var start, tape: Tape<P> := Conn(0, client, []), Tape([], 0);
    assert Sharp(start, tape);
    RunStaysSharp(start, tape, us, refetch);
    var (k, t) := UseAll(start, tape, us, refetch);
    hide UseAll, Usual;
    if 0 <= from < k.server && !Truncates(k, from) {
      ResendFaithfulIff(k, t, from, refetch);
    }
  }

  /** The smallest instance: after a, b, c and a resend from 2, a resend from 1 repeats c and loses b. */
  lemma ResendBelowAnEarlierOne<P>(a: P, b: P, c: P, refetch: P)
    requires b != c
    ensures var k := Resend(SendAll(Conn(0, 0, []), [a, b, c]), 2, refetch);
      k.server == 3 && ResendBodies(k, 1, refetch) == [c, c] != [b, c]
  {
    var k0: Conn<P> := Conn(0, 0, []);
    var k1 := SendAll(k0, [a, b, c]);
    assert k1.lastTen == [a, b, c];
    assert ResendBodies(k1, 2, refetch) == [c];
    assert Resend(k1, 2, refetch).lastTen == [a, b, c, c];
  }

  // ---- Both ends over lossy FIFO links

  /** The client mirrors `receive`: it takes the next number, ignores lower ones and asks for a resend on a gap.
      Everything it sends carries the number of messages it has taken (`got`). `stale` counts the frames, at the front
      of those in flight, that were sent before the last cut of the stream. */
  datatype Pair<P, M> = Pair(k: Conn<P>, t: Tape<P>,
                              down: seq<Frame<P>>, up: seq<Incoming<M>>,
                              got: int, accepted: seq<P>, stale: nat)

  datatype Step<P, M> =
    | ServerSends(p: P)
    | ServerReceives
    | ClientSends(msg: Incoming<M>)
    | ClientReceives
    | DownLost(i: int)
    | UpLost(i: int)

  function Carried<M>(msg: Incoming<M>): Option<int> {
    match msg
    case ResendRequest(from) => Some(from)
    case Counted(_, s, _) => s
    case _ => None
  }

  /** Where the server's `receive` resends from, if it does. */
  function ResendsFrom<P, M>(k: Conn<P>, msg: Incoming<M>): Option<int> {
    match Judge(k, msg)
    case Resent => Some(msg.from)
    case Rejected(_, _) => msg.s
    case _ => None
  }

  ghost predicate Enabled<P, M>(x: Pair<P, M>, step: Step<P, M>) {
    match step
    case ServerSends(_) => true
    case ServerReceives => x.up != []
    case ClientSends(msg) => !msg.ResendRequest? && (Carried(msg).Some? ==> Carried(msg).value == x.got)
    case ClientReceives => x.down != []
    case DownLost(i) => 0 <= i < |x.down|
    case UpLost(i) => 0 <= i < |x.up|
  }

  ghost function WithoutAt<T>(s: seq<T>, i: int): seq<T>
    requires 0 <= i < |s|
  {
    s[..i] + s[i + 1..]
  }

  ghost function ServerTakes<P, M>(x: Pair<P, M>, n: Notices<P>): Pair<P, M>
    requires x.up != []
  {
    var msg := x.up[0];
    var f := ResendsFrom(x.k, msg);
    var t := if f.Some? && 0 <= f.value <= |x.t.stream| then TapeResend(x.k, x.t, f.value, n.refetch)
             else if Judge(x.k, msg).Denied? then TapeSend(x.t, n.denied) else x.t;
    x.(k := Receive(x.k, msg, n), t := t, down := x.down + ReceiveFrames(x.k, msg, n), up := x.up[1..],
       stale := if f.Some? && Truncates(x.k, f.value) then |x.down| else x.stale)
  }

  ghost function ClientTakes<P, M>(x: Pair<P, M>): Pair<P, M>
    requires x.down != []
  {
    var f := x.down[0];
    var y := x.(down := x.down[1..], stale := if x.stale > 0 then x.stale - 1 else 0);
    if f.s == x.got + 1 then y.(got := x.got + 1, accepted := x.accepted + [f.body])
    else if f.s <= x.got then y
    else y.(up := x.up + [ResendRequest(x.got)])
  }

  ghost function Take<P, M>(x: Pair<P, M>, step: Step<P, M>, n: Notices<P>): Pair<P, M>
    requires Enabled(x, step)
  {
    match step
    case ServerSends(p) => x.(k := Send(x.k, p), t := TapeSend(x.t, p), down := x.down + [Stamp(x.k, p)])
    case ServerReceives => ServerTakes(x, n)
    case ClientSends(msg) => x.(up := x.up + [msg])
    case ClientReceives => ClientTakes(x)
    case DownLost(i) => x.(down := WithoutAt(x.down, i), stale := if i < x.stale then x.stale - 1 else x.stale)
    case UpLost(i) => x.(up := WithoutAt(x.up, i))
  }

  ghost predicate Prefix<P, M>(x: Pair<P, M>) {
    0 <= x.got <= |x.t.stream| && x.accepted == x.t.stream[..x.got]
  }

  ghost predicate Consistent<P>(stream: seq<P>, f: Frame<P>) {
    1 <= f.s <= |stream| && f.body == stream[f.s - 1]
  }

  /** In flight: first the stale frames, none of which the client can take, then true ones. */
  ghost predicate InFlight<P, M>(x: Pair<P, M>) {
    && x.stale <= |x.down|
    && (x.stale > 0 ==> x.got < |x.t.stream|)
    && (forall i :: 0 <= i < x.stale ==> x.down[i].s != x.got + 1)
    && (forall i :: x.stale <= i < |x.down| ==> Consistent(x.t.stream, x.down[i]))
  }

  ghost predicate Asked<M>(up: seq<Incoming<M>>, last: int, got: int, server: int) {
    && (forall i :: 0 <= i < |up| && Carried(up[i]).Some? ==> last <= Carried(up[i]).value <= got)
    && (forall i, j :: 0 <= i < j < |up| && Carried(up[i]).Some? && Carried(up[j]).Some? ==>
          Carried(up[i]).value <= Carried(up[j]).value)
    && (forall i :: 0 <= i < |up| && up[i].ResendRequest? ==> up[i].from < server)
  }

  ghost predicate Inv<P, M>(x: Pair<P, M>) {
    && Aligned(x.k, x.t)
    && Prefix(x)
    && x.t.last <= x.got
    && Asked(x.up, x.t.last, x.got, x.k.server)
    && InFlight(x)
  }

  /** A cut is clean when the client is still at `from` and message from+1 is not on its way. */
  ghost predicate CutIsClean<P, M>(x: Pair<P, M>, from: int) {
    x.got == from && forall i :: 0 <= i < |x.down| ==> x.down[i].s != from + 1
  }

  ghost predicate Cuts<P, M>(x: Pair<P, M>) {
    x.up != [] && var f := ResendsFrom(x.k, x.up[0]); f.Some? && Truncates(x.k, f.value)
  }

  ghost predicate Clean<P, M>(x: Pair<P, M>, step: Step<P, M>) {
    step.ServerReceives? && Cuts(x) ==> CutIsClean(x, ResendsFrom(x.k, x.up[0]).value)
  }

  lemma DownLostKeeps<P, M>(x: Pair<P, M>, i: int, n: Notices<P>)
    requires Inv(x) && Enabled(x, DownLost(i))
    ensures Inv(Take(x, DownLost(i), n))
  {
  }

  lemma UpLostKeeps<P, M>(x: Pair<P, M>, i: int, n: Notices<P>)
    requires Inv(x) && Enabled(x, UpLost(i))
    ensures Inv(Take(x, UpLost(i), n))
  {
    var y := Take(x, UpLost(i), n);
    assert forall j :: 0 <= j < |y.up| ==> y.up[j] == x.up[if j < i then j else j + 1];
  }

  lemma ClientSendsKeeps<P, M>(x: Pair<P, M>, msg: Incoming<M>, n: Notices<P>)
    requires Inv(x) && Enabled(x, ClientSends(msg))
    ensures Inv(Take(x, ClientSends(msg), n))
  {
    var y := Take(x, ClientSends(msg), n);
  }

  lemma ServerSendsKeeps<P, M>(x: Pair<P, M>, p: P, n: Notices<P>)
    requires Inv(x)
    ensures Inv(Take(x, ServerSends(p), n))
  {
    var y := Take(x, ServerSends(p), n);
    SendStaysAligned(x.k, x.t, p);
  }

  lemma ClientReceivesKeeps<P, M>(x: Pair<P, M>, n: Notices<P>)
    requires Inv(x) && Enabled(x, ClientReceives)
    ensures Inv(Take(x, ClientReceives, n))
  {
    var y := Take(x, ClientReceives, n);
    if x.down[0].s == x.got + 1 {
      assert x.t.stream[..y.got] == x.t.stream[..x.got] + [x.t.stream[x.got]];
    }
  }

  lemma AskedAfter<M>(up: seq<Incoming<M>>, last: int, got: int, server: int, from: int, server': int)
    requires Asked(up, last, got, server) && up != []
    requires from == last || Carried(up[0]) == Some(from)
    requires server' == server || got < server'
    ensures Asked(up[1..], from, got, server')
  {
  }

  /** A resend as seen from outside: it appends `fs`, which are the stream from `from` on. */
  lemma ResentFramesKeep<P, M>(x: Pair<P, M>, from: int, refetch: P, fs: seq<Frame<P>>, y: Pair<P, M>)
    requires Inv(x) && x.up != [] && Carried(x.up[0]) == Some(from) && from < x.k.server
    requires Truncates(x.k, from) ==> CutIsClean(x, from)
    requires y.t == TapeResend(x.k, x.t, from, refetch) && Aligned(y.k, y.t)
    requires |fs| == |y.t.stream| - from
    requires forall i :: 0 <= i < |fs| ==> fs[i].s == from + 1 + i && fs[i].body == y.t.stream[from + i]
    requires y.down == x.down + fs && y.up == x.up[1..] && y.got == x.got && y.accepted == x.accepted
    requires y.stale == if Truncates(x.k, from) then |x.down| else x.stale
    ensures Inv(y)
  {
    AskedAfter(x.up, x.t.last, x.got, x.k.server, from, y.k.server);
    assert forall i :: 0 <= i < |fs| ==> Consistent(y.t.stream, fs[i]);
    if Truncates(x.k, from) {
      assert y.t.stream[..y.got] == x.t.stream[..x.got];
    } else {
    }
  }

  lemma ResendsFromIsCarried<P, M>(x: Pair<P, M>)
    requires Inv(x) && x.up != [] && ResendsFrom(x.k, x.up[0]).Some?
    ensures var from := ResendsFrom(x.k, x.up[0]).value;
      && Carried(x.up[0]) == Some(from)
      && x.t.last <= from < x.k.server
      && from <= x.got
  {
    hide Last, Aligned, InFlight, Prefix;
  }

  lemma AlignedAnyClient<P>(k: Conn<P>, t: Tape<P>, client: int)
    requires Aligned(k, t)
    ensures Aligned(k.(client := client), t)
  {
    hide Last;
  }

  lemma SameTape<P>(k: Conn<P>, k': Conn<P>, t: Tape<P>, from: int, refetch: P)
    requires k.server == k'.server && k.lastTen == k'.lastTen && 0 <= from <= |t.stream|
    ensures TapeResend(k, t, from, refetch) == TapeResend(k', t, from, refetch)
  {
  }

  /** The resending branch of `ServerTakes`, spelled out. */
  lemma ServerTakesResend<P, M>(x: Pair<P, M>, n: Notices<P>) returns (k: Conn<P>, from: int)
    requires Inv(x) && x.up != [] && ResendsFrom(x.k, x.up[0]).Some?
    ensures from == ResendsFrom(x.k, x.up[0]).value
    ensures k.server == x.k.server && k.lastTen == x.k.lastTen && Aligned(k, x.t)
    ensures x.t.last <= from < x.k.server == |x.t.stream|
    ensures ServerTakes(x, n) == x.(
      k := Resend(k, from, n.refetch), t := TapeResend(k, x.t, from, n.refetch),
      down := x.down + ResendFrames(k, from, n.refetch), up := x.up[1..],
      stale := if Truncates(x.k, from) then |x.down| else x.stale)
  {
    hide Last, Asked, InFlight, Prefix, Resend, ResendFrames, TapeResend;
    from := ResendsFrom(x.k, x.up[0]).value;
    ResendsFromIsCarried(x);
    k := if x.up[0].ResendRequest? then x.k else x.k.(client := x.k.client + 1);
    AlignedAnyClient(x.k, x.t, k.client);
    SameTape(x.k, k, x.t, from, n.refetch);
  }

  lemma ServerResendsKeeps<P, M>(x: Pair<P, M>, n: Notices<P>)
    requires Inv(x) && x.up != [] && ResendsFrom(x.k, x.up[0]).Some?
    requires Cuts(x) ==> CutIsClean(x, ResendsFrom(x.k, x.up[0]).value)
    ensures Inv(ServerTakes(x, n))
  {
    ResendsFromIsCarried(x);
    var k, from := ServerTakesResend(x, n);
    ResendStaysAligned(k, x.t, from, n.refetch);
    hide Last, Asked, InFlight, Prefix, Aligned, Resend, ResendFrames, ServerTakes;
    ResentFramesKeep(x, from, n.refetch, ResendFrames(k, from, n.refetch), ServerTakes(x, n));
  }

  lemma ServerReceivesKeeps<P, M>(x: Pair<P, M>, n: Notices<P>)
    requires Inv(x) && Enabled(x, ServerReceives) && Clean(x, ServerReceives)
    ensures Inv(Take(x, ServerReceives, n))
  {
    hide Last;
    if ResendsFrom(x.k, x.up[0]).Some? {
      hide Asked, InFlight, Prefix, Aligned, ServerTakes;
      ServerResendsKeeps(x, n);
    } else {
      AskedAfter(x.up, x.t.last, x.got, x.k.server, x.t.last, x.k.server);
      if Judge(x.k, x.up[0]).Denied? {
        SendStaysAligned(x.k, x.t, n.denied);
      } else {
        AlignedAnyClient(x.k, x.t, Receive(x.k, x.up[0], n).client);
      }
    }
  }

  lemma StepKeeps<P, M>(x: Pair<P, M>, step: Step<P, M>, n: Notices<P>)
    requires Inv(x) && Enabled(x, step) && Clean(x, step)
    ensures Inv(Take(x, step, n))
  {
    match step
    case ServerSends(p) => ServerSendsKeeps(x, p, n);
    case ServerReceives => ServerReceivesKeeps(x, n);
    case ClientSends(msg) => ClientSendsKeeps(x, msg, n);
    case ClientReceives => ClientReceivesKeeps(x, n);
    case DownLost(i) => DownLostKeeps(x, i, n);
    case UpLost(i) => UpLostKeeps(x, i, n);
  }

  ghost predicate Allowed<P, M>(x: Pair<P, M>, steps: seq<Step<P, M>>, n: Notices<P>)
    decreases |steps|
  {
    steps == [] || (Enabled(x, steps[0]) && Clean(x, steps[0]) && Allowed(Take(x, steps[0], n), steps[1..], n))
  }

  ghost function TakeAll<P, M>(x: Pair<P, M>, steps: seq<Step<P, M>>, n: Notices<P>): Pair<P, M>
    requires Allowed(x, steps, n)
    decreases |steps|
  {
    if steps == [] then x else TakeAll(Take(x, steps[0], n), steps[1..], n)
  }

  ghost function Fresh<P, M>(): Pair<P, M> {
    Pair(Conn(0, 0, []), Tape([], 0), [], [], 0, [], 0)
  }

  lemma {:induction false} RunKeeps<P, M>(x: Pair<P, M>, steps: seq<Step<P, M>>, n: Notices<P>)
    requires Inv(x) && Allowed(x, steps, n)
    ensures Inv(TakeAll(x, steps, n))
    decreases |steps|
  {
    if steps != [] {
      StepKeeps(x, steps[0], n);
      RunKeeps(Take(x, steps[0], n), steps[1..], n);
    }
  }

  /** Whatever is lost in either direction, in every run whose cuts are clean the client has taken exactly the first
      `got` messages of the logical stream, in order and without repetition. */
  lemma AcceptedIsPrefix<P, M>(steps: seq<Step<P, M>>, n: Notices<P>)
    requires Allowed(Fresh<P, M>(), steps, n)
    ensures Prefix(TakeAll(Fresh<P, M>(), steps, n))
  {
    RunKeeps(Fresh<P, M>(), steps, n);
  }

  ghost function DeliverDown<P, M>(x: Pair<P, M>, count: nat): Pair<P, M>
    requires count <= |x.down|
    decreases count
  {
    if count == 0 then x else DeliverDown(ClientTakes(x), count - 1)
  }

  lemma {:induction false} DeliverKeepsAccepted<P, M>(x: Pair<P, M>, count: nat)
    requires count <= |x.down| && |x.accepted| == x.got
    ensures var y := DeliverDown(x, count);
      y.t == x.t && |y.accepted| == y.got && x.got <= y.got && y.accepted[..x.got] == x.accepted
    decreases count
  {
    if count > 0 {
      DeliverKeepsAccepted(ClientTakes(x), count - 1);
    }
  }

  lemma {:induction false} DeliverUpTo<P, M>(x: Pair<P, M>, j: nat)
    requires j < |x.down| && |x.accepted| == x.got
    requires x.down[j].s == x.got + 1 && forall i :: 0 <= i < j ==> x.down[i].s != x.got + 1
    ensures var y := DeliverDown(x, j + 1);
      y.t == x.t && y.got == x.got + 1 && y.accepted == x.accepted + [x.down[j].body]
    decreases j
  {
    if j > 0 {
      DeliverUpTo(ClientTakes(x), j - 1);
    } else {
      assert DeliverDown(x, 1) == DeliverDown(ClientTakes(x), 0);
    }
  }

  /** Cleanness is necessary: after any other cut of a message that is not itself the refetch notice, delivering what
      is in flight leaves the client with something that is not a prefix of the stream. */
  lemma UncleanCutBreaksPrefix<P, M>(x: Pair<P, M>, from: int, n: Notices<P>)
    requires Inv(x) && Cuts(x) && ResendsFrom(x.k, x.up[0]) == Some(from)
    requires x.t.stream[from] != n.refetch
    requires !CutIsClean(x, from)
    ensures exists count: nat :: count <= |ServerTakes(x, n).down| && !Prefix(DeliverDown(ServerTakes(x, n), count))
  {
    var y := ServerTakes(x, n);
    assert y.t.stream[from] == n.refetch;
    if x.got > from {
      assert y.accepted[from] == x.t.stream[from];
      assert DeliverDown(y, 0) == y;
      assert !Prefix(DeliverDown(y, 0)) by {
        if y.got <= |y.t.stream| {
          assert y.t.stream[..y.got][from] == n.refetch;
        }
      }
    } else {
      var j := FirstIndex(x.down, from + 1);
      assert Consistent(x.t.stream, x.down[j]);
      assert y.down[..|x.down|] == x.down;
      assert forall i :: 0 <= i <= j ==> y.down[i] == x.down[i];
      DeliverUpTo(y, j);
      var z := DeliverDown(y, j + 1);
      assert z.accepted[from] == x.t.stream[from];
      assert !Prefix(z) by {
        if z.got <= |z.t.stream| {
          assert z.t.stream[..z.got][from] == n.refetch;
        }
      }
    }
  }

  function Burst<P, M>(n: nat, p: P): seq<Step<P, M>> {
    seq(n, _ => ServerSends(p))
  }

  lemma {:induction false} OneMoreStep<P, M>(x: Pair<P, M>, steps: seq<Step<P, M>>, last: Step<P, M>, n: Notices<P>)
    requires Allowed(x, steps, n) && (var y := TakeAll(x, steps, n); Enabled(y, last) && Clean(y, last))
    ensures Allowed(x, steps + [last], n) && TakeAll(x, steps + [last], n) == Take(TakeAll(x, steps, n), last, n)
    decreases |steps|
  {
    if steps == [] {
      assert [last][1..] == [];
    } else {
      assert (steps + [last])[1..] == steps[1..] + [last];
      OneMoreStep(Take(x, steps[0], n), steps[1..], last, n);
    }
  }

  ghost function Bursted<P, M>(x: Pair<P, M>, ps: seq<P>): Pair<P, M> {
    x.(k := SendAll(x.k, ps), t := Tape(x.t.stream + ps, x.t.last), down := x.down + StampAll(x.k, ps))
  }

  lemma {:induction false} BurstIsInFlight<P, M>(x: Pair<P, M>, count: nat, p: P, n: Notices<P>)
    requires |x.k.lastTen| <= RING_SIZE
    ensures Allowed(x, Burst<P, M>(count, p), n)
    ensures TakeAll(x, Burst<P, M>(count, p), n) == Bursted(x, seq(count, _ => p))
    decreases count
  {
    var ps := seq(count, _ => p);
    if count == 0 {
      SendNone(x.k);
      assert ps == [] && x.t.stream + [] == x.t.stream && x.down + [] == x.down;
    } else {
      var fewer := seq(count - 1, _ => p);
      assert ps == fewer + [p] && Burst<P, M>(count, p) == Burst<P, M>(count - 1, p) + [ServerSends(p)];
      BurstIsInFlight(x, count - 1, p, n);
      OneMoreStep(x, Burst<P, M>(count - 1, p), ServerSends(p), n);
      SendAllAppend(x.k, fewer, p);
      hide SendAll, StampAll, Send, Stamp, Allowed, TakeAll;
      assert x.t.stream + (fewer + [p]) == x.t.stream + fewer + [p];
    }
  }

  /** A state about to be cut, uncleanly, at `from`, and what delivery leads to then. */
  ghost predicate BreaksAt<P, M>(x: Pair<P, M>, from: int, n: Notices<P>) {
    && Inv(x) && Cuts(x) && ResendsFrom(x.k, x.up[0]) == Some(from) && !CutIsClean(x, from)
    && exists count: nat :: count <= |ServerTakes(x, n).down| && !Prefix(DeliverDown(ServerTakes(x, n), count))
  }

  /** Unclean cuts happen: eleven messages on their way, and then a message the client sent before it had any. */
  lemma UncleanCutIsReachable<P, M>(p: P, body: M, n: Notices<P>)
    requires p != n.refetch
    ensures exists steps :: Allowed(Fresh<P, M>(), steps, n) && BreaksAt(TakeAll(Fresh<P, M>(), steps, n), 0, n)
  {
    var start := Fresh<P, M>();
    var burst := Burst<P, M>(11, p);
    var msg := Counted(Some(1), Some(0), body);
    var ps := seq(11, _ => p);
    assert Inv(start);
    hide TakeAll, Allowed, Inv, BreaksAt, Burst, SendAll, StampAll, ServerTakes, ClientTakes;
    BurstIsInFlight(start, 11, p, n);
    OneMoreStep(start, burst, ClientSends(msg), n);
    var steps := burst + [ClientSends(msg)];
    RunKeeps(start, steps, n);
    var x := TakeAll(start, steps, n);
    assert x.up == [msg];
    ElevenBreak(x, p, body, n);
  }

  lemma ElevenBreak<P, M>(x: Pair<P, M>, p: P, body: M, n: Notices<P>)
    requires Inv(x) && p != n.refetch
    requires x == Bursted(Fresh<P, M>(), seq(11, _ => p)).(up := [Counted(Some(1), Some(0), body)])
    ensures BreaksAt(x, 0, n)
  {
    var ps := seq(11, _ => p);
    assert x.k.server == 11 && x.k.client == 0 && |x.k.lastTen| == 10;
    assert x.down[0] == StampAll(Conn(0, 0, []), ps)[0];
    assert x.down[0].s == 1 && x.t.stream[0] == p;
    assert ResendsFrom(x.k, x.up[0]) == Some(0);
    hide Inv, SendAll, StampAll;
    UncleanCutBreaksPrefix(x, 0, n);
  }

  lemma FirstIndex<P>(down: seq<Frame<P>>, s: int) returns (j: nat)
    requires exists i :: 0 <= i < |down| && down[i].s == s
    ensures j < |down| && down[j].s == s && forall i :: 0 <= i < j ==> down[i].s != s
  {
    j := 0;
    while down[j].s != s
      invariant j < |down| && (forall i :: 0 <= i < j ==> down[i].s != s)
      invariant exists i :: j <= i < |down| && down[i].s == s
      decreases |down| - j
    {
      j := j + 1;
    }
  }

  /** Recovery: once nothing is in flight and a resend from the client's position is answered, delivering the answer
      brings the client to the end of the stream. */
  lemma ResendRecovers<P, M>(x: Pair<P, M>, n: Notices<P>)
    requires Inv(x) && x.down == [] && x.up != [] && x.up[0] == ResendRequest(x.got)
    ensures var y := ServerTakes(x, n);
      var z := DeliverDown(y, |y.down|);
      z.got == |z.t.stream| == z.k.server && z.accepted == z.t.stream
  {
    hide Last, Asked, InFlight, Resend, ResendFrames;
    ServerReceivesKeeps(x, n);
    var k, from := ServerTakesResend(x, n);
    ResendStaysAligned(k, x.t, from, n.refetch);
    hide ServerTakes;
    var y := ServerTakes(x, n);
    assert y.down == ResendFrames(k, from, n.refetch);
    DeliverConsecutive(y);
    var z := DeliverDown(y, |y.down|);
    assert z.t.stream[..|z.t.stream|] == z.t.stream;
  }

  lemma {:induction false} DeliverConsecutive<P, M>(y: Pair<P, M>)
    requires Prefix(y)
    requires |y.down| == |y.t.stream| - y.got
    requires forall i :: 0 <= i < |y.down| ==> y.down[i].s == y.got + 1 + i && y.down[i].body == y.t.stream[y.got + i]
    ensures var z := DeliverDown(y, |y.down|);
      z.got == |y.t.stream| && z.t == y.t && z.k == y.k && Prefix(z)
    decreases |y.down|
  {
    if y.down != [] {
      var y' := ClientTakes(y);
      assert y.t.stream[..y'.got] == y.t.stream[..y.got] + [y.t.stream[y.got]];
      DeliverConsecutive(y');
    }
  }
}
