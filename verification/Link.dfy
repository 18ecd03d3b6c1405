/**
 The counters and the resend buffer of one connection.

 Every numbered message carries `c`, the number of client messages consumed so far, and `s`, its own number.
 A resend first rewinds the server counter and then sends buffered messages again, which pushes them into the
 buffer a second time. Payloads are kept without their stamps: the stamps are rewritten on every send and
 nothing reads them back from the buffer.
 */
module Link {
  import opened Prelude

  const RING_SIZE := 10

  datatype Frame<P> = Frame(c: int, s: int, body: P)

  datatype Conn<P> = Conn(server: int, client: int, lastTen: seq<P>)

  /** What the client put on the wire; a missing counter is `None`. */
  datatype Incoming<M> =
    | Empty
    | Ping
    | ResendRequest(from: int)
    | Counted(c: Option<int>, s: Option<int>, body: M)

  /** What `receive` does with a frame. `Crashed` is an exception: one of the counters is missing, or messages of the
      client are, and then the code calls `send_json`, which its base class does not have, where it means to ask the
      client for them. */
  datatype Verdict<M> =
    | Ignored
    | Pong
    | Resent
    | Denied
    | Crashed
    | Rejected(c: int, body: M)
    | Handled(c: int, body: M)

  /** The two messages the connection sends on its own account. */
  datatype Notices<P> = Notices(refetch: P, denied: P)

  // ---- Sending

  function Send<P>(k: Conn<P>, p: P): Conn<P> {
    Conn(k.server + 1, k.client, Last(k.lastTen + [p], RING_SIZE))
  }

  function Stamp<P>(k: Conn<P>, p: P): Frame<P> {
    Frame(k.client, k.server + 1, p)
  }

  /** A batch of sends numbers its payloads consecutively and leaves the last ten payloads in the buffer. */
  function SendAll<P>(k: Conn<P>, ps: seq<P>): Conn<P> {
    Conn(k.server + |ps|, k.client, Last(k.lastTen + ps, RING_SIZE))
  }

  function StampAll<P>(k: Conn<P>, ps: seq<P>): seq<Frame<P>> {
    seq(|ps|, i requires 0 <= i < |ps| => Frame(k.client, k.server + 1 + i, ps[i]))
  }

  /** Sending a batch and then one more message is sending the longer batch, one message at a time. */
  lemma SendAllAppend<P>(k: Conn<P>, ps: seq<P>, p: P)
    ensures SendAll(k, ps + [p]) == Send(SendAll(k, ps), p)
    ensures StampAll(k, ps + [p]) == StampAll(k, ps) + [Stamp(SendAll(k, ps), p)]
  {
    LastAppend(k.lastTen + ps, [p], RING_SIZE);
    assert k.lastTen + ps + [p] == k.lastTen + (ps + [p]);
  }

  lemma SendNone<P>(k: Conn<P>)
    requires |k.lastTen| <= RING_SIZE
    ensures SendAll(k, []) == k && StampAll(k, []) == []
  {
    assert k.lastTen + [] == k.lastTen;
  }

  // ---- Resending

  /** Python's `buffer[0 - n:]`: the last `n` entries for positive `n`, but the whole buffer for `n == 0`
      and the buffer without its first `-n` entries for negative `n`. */
  function TailFrom<P>(buffer: seq<P>, n: int): seq<P> {
    if n > 0 then Last(buffer, n)
    else if -n <= |buffer| then buffer[-n..]
    else []
  }

  /** The payloads a resend from `from` puts on the wire. */
  function ResendBodies<P>(k: Conn<P>, from: int, refetch: P): seq<P> {
    if k.server - from > |k.lastTen| then [refetch] else TailFrom(k.lastTen, k.server - from)
  }

  function Resend<P>(k: Conn<P>, from: int, refetch: P): Conn<P> {
    SendAll(k.(server := from), ResendBodies(k, from, refetch))
  }

  function ResendFrames<P>(k: Conn<P>, from: int, refetch: P): seq<Frame<P>> {
    StampAll(k.(server := from), ResendBodies(k, from, refetch))
  }

  /** The native server's resend: the same rewind and the same tail, but `to_send` saturates at zero. */
  function NativeResend<P>(k: Conn<P>, from: nat, refetch: P): Conn<P> {
    var toSend := if k.server > from then k.server - from else 0;
    SendAll(k.(server := k.server - toSend),
            if toSend > |k.lastTen| then [refetch] else k.lastTen[|k.lastTen| - toSend..])
  }

  /** The two servers agree on a resend exactly when the client really is behind, or when it is level and
      nothing was buffered: Python's `buffer[-0:]` is the whole buffer, and a `from` above the counter moves it up. */
  lemma ResendsAgree<P>(k: Conn<P>, from: nat, refetch: P)
    requires |k.lastTen| <= RING_SIZE && 0 <= k.server
    ensures Resend(k, from, refetch) == NativeResend(k, from, refetch)
       <==> from < k.server || (from == k.server && k.lastTen == [])
  {
    if from >= k.server {
      assert k.lastTen[|k.lastTen|..] == [];
      assert k.lastTen + [] == k.lastTen;
      if from == k.server && k.lastTen != [] {
        assert |ResendBodies(k, from, refetch)| > 0;
      }
    }
  }

  // ---- Receiving

  function Judge<P, M>(k: Conn<P>, msg: Incoming<M>): Verdict<M> {
    match msg
    case Empty => Ignored
    case Ping => Pong
    case ResendRequest(_) => Resent
    case Counted(None, None, _) => Denied
    case Counted(None, Some(_), _) => Crashed
    case Counted(Some(_), None, _) => Crashed
    case Counted(Some(c), Some(s), body) =>
      if c < k.client + 1 then Ignored
      else if c > k.client + 1 then Crashed
      else if s < k.server then Rejected(c, body)
      else Handled(c, body)
  }

  /** The connection after `receive`, before a handled or rejected message is passed on. */
  function Receive<P, M>(k: Conn<P>, msg: Incoming<M>, n: Notices<P>): Conn<P> {
    match Judge(k, msg)
    case Resent => Resend(k, msg.from, n.refetch)
    case Denied => Send(k, n.denied)
    case Rejected(_, _) => Resend(k.(client := k.client + 1), msg.s.value, n.refetch)
    case Handled(_, _) => k.(client := k.client + 1)
    case _ => k
  }

  function ReceiveFrames<P, M>(k: Conn<P>, msg: Incoming<M>, n: Notices<P>): seq<Frame<P>> {
    match Judge(k, msg)
    case Resent => ResendFrames(k, msg.from, n.refetch)
    case Denied => [Stamp(k, n.denied)]
    case Rejected(_, _) => ResendFrames(k.(client := k.client + 1), msg.s.value, n.refetch)
    case _ => []
  }

  /** The frame asks for more than is buffered, so that all it gets is a refetch. */
  predicate Overflows<P, M>(k: Conn<P>, msg: Incoming<M>) {
    match Judge<P, M>(k, msg)
    case Resent => k.server - msg.from > |k.lastTen|
    case Rejected(_, _) => k.server - msg.s.value > |k.lastTen|
    case _ => false
  }

  /** The consumer's mutable bookkeeping; `sent` is everything written to the transport. */
  class Connection<P> {
    var server: int
    var client: int
    var lastTen: seq<P>
    var sent: seq<Frame<P>>

    ghost predicate Valid()
      reads this
    {
      |lastTen| <= RING_SIZE
    }

    ghost function State(): Conn<P>
      reads this
    {
      Conn(server, client, lastTen)
    }

    constructor ()
      ensures Valid() && State() == Conn(0, 0, []) && sent == []
    {
      server, client, lastTen, sent := 0, 0, [], [];
    }

    method SendMessage(p: P)
      requires Valid()
      modifies this
      ensures Valid()
      ensures State() == Send(old(State()), p)
      ensures sent == old(sent) + [Stamp(old(State()), p)]
    {
      server := server + 1;
      lastTen := lastTen + [p];
      lastTen := Last(lastTen, RING_SIZE);
      sent := sent + [Frame(client, server, p)];
    }

    method ResendMessages(from: int, refetch: P)
      requires Valid()
      modifies this
      ensures Valid()
      ensures State() == Resend(old(State()), from, refetch)
      ensures sent == old(sent) + ResendFrames(old(State()), from, refetch)
    {
      hide Last;
      var toSend := server - from;
      server := server - toSend;
      if toSend > |lastTen| {
        SendNone(State());
        SendAllAppend(State(), [], refetch);
        assert [] + [refetch] == [refetch];
        SendMessage(refetch);
        return;
      }
      var bodies := TailFrom(lastTen, toSend);
      ghost var start := State();
      SendNone(start);
      assert bodies[..0] == [];
      var i := 0;
      while i < |bodies|
        invariant 0 <= i <= |bodies| && Valid()
        invariant State() == SendAll(start, bodies[..i])
        invariant sent == old(sent) + StampAll(start, bodies[..i])
      {
        SendAllAppend(start, bodies[..i], bodies[i]);
        assert bodies[..i + 1] == bodies[..i] + [bodies[i]];
        SendMessage(bodies[i]);
        i := i + 1;
      }
      assert bodies[..i] == bodies;
    }

    method Refetches<M>(msg: Incoming<M>) returns (refetch: bool)
      ensures refetch == Overflows(State(), msg)
    {
      var verdict: Verdict<M> := Judge(Conn(server, client, lastTen), msg);
      match verdict
      case Resent => return server - msg.from > |lastTen|;
      case Rejected(_, _) => return server - msg.s.value > |lastTen|;
      case _ => return false;
    }

    method ReceiveMessage<M>(msg: Incoming<M>, n: Notices<P>) returns (verdict: Verdict<M>)
      requires Valid()
      modifies this
      ensures Valid()
      ensures verdict == Judge(old(State()), msg)
      ensures State() == Receive(old(State()), msg, n)
      ensures sent == old(sent) + ReceiveFrames(old(State()), msg, n)
    {
      match msg
      case Empty => return Ignored;
      case Ping => return Pong;
      case ResendRequest(from) =>
        ResendMessages(from, n.refetch);
        return Resent;
      case Counted(c, s, body) =>
        if c.None? && s.None? {
          SendMessage(n.denied);
          return Denied;
        }
        if c.None? || s.None? {
          return Crashed;
        }
        if c.value < client + 1 {
          return Ignored;
        } else if c.value > client + 1 {
          return Crashed;
        } else if s.value < server {
          client := client + 1;
          ResendMessages(s.value, n.refetch);
          return Rejected(c.value, body);
        }
        client := client + 1;
        return Handled(c.value, body);
    }
  }
}
