/** Saving without a live session, and the covering diffs handed to a client that comes back (views.py). */
module DirectSaves {
  import opened Prelude
  import opened Documents

  const DIRECT_HISTORY_LENGTH := 200

  /** The version and the log of a stored document; `E` are log entries. */
  datatype Stored<E> = Stored(version: int, diffs: seq<E>)

  /** One save over HTTP of a document: a readable one logs the steps, an encrypted one empties the log. A request that
      names another version than the stored one is refused. */
  datatype Save<E> = Save(encrypted: bool, entry: E, expected: Option<int>)

  /** What can happen to the row: a save over HTTP, or a live session whose accepted diffs are then saved. */
  datatype Event<E> = Saves(s: Save<E>) | SessionEnds(accepted: seq<E>)

  predicate Refused<E>(x: Stored<E>, s: Save<E>) {
    s.expected.Some? && s.expected.value != x.version
  }

  function Saved<E>(x: Stored<E>, s: Save<E>): Stored<E> {
    if Refused(x, s) then x
    else Stored(x.version + 1, if s.encrypted then [] else Last(x.diffs + [s.entry], DIRECT_HISTORY_LENGTH))
  }

  function Happens<E>(x: Stored<E>, e: Event<E>): Stored<E> {
    match e
    case Saves(s) => Saved(x, s)
    case SessionEnds(accepted) => Stored(x.version + |accepted|, Last(x.diffs + accepted, HISTORY_LENGTH))
  }

  function After<E>(x: Stored<E>, es: seq<Event<E>>): Stored<E>
    decreases |es|
  {
    if es == [] then x else After(Happens(x, es[0]), es[1..])
  }

  /** `get_doc_data` for a client at version `v`. */
  function Covering<E>(x: Stored<E>, v: int): Option<seq<E>> {
    if x.version > v && v + |x.diffs| >= x.version then Some(Last(x.diffs, x.version - v)) else None
  }

  /** One save: a request for another version changes nothing; otherwise the version moves on by one, the log of an
      encrypted document is emptied and that of a readable one has the entry at its end and at most two hundred. */
  lemma SaveIs<E>(x: Stored<E>, s: Save<E>)
    ensures var y := Saved(x, s);
      if s.expected.Some? && s.expected.value != x.version then y == x
      else
        && y.version == x.version + 1
        && (s.encrypted ==> y.diffs == [])
        && (!s.encrypted ==>
              && |y.diffs| == (if |x.diffs| < 200 then |x.diffs| + 1 else 200)
              && y.diffs == (x.diffs + [s.entry])[|x.diffs| + 1 - |y.diffs|..])
  {
  }

  // ---- Against the full history: what made each version, if anything was logged for it

  function Made<E>(x: Stored<E>, e: Event<E>): seq<Option<E>> {
    match e
    case Saves(s) => if Refused(x, s) then [] else [if s.encrypted then None else Some(s.entry)]
    case SessionEnds(accepted) => seq(|accepted|, i requires 0 <= i < |accepted| => Some(accepted[i]))
  }

  function History<E>(x: Stored<E>, es: seq<Event<E>>, history: seq<Option<E>>): seq<Option<E>>
    decreases |es|
  {
    if es == [] then history else History(Happens(x, es[0]), es[1..], history + Made(x, es[0]))
  }

  /** The log is a tail of the history without gaps. */
  ghost predicate Tail<E>(x: Stored<E>, start: int, history: seq<Option<E>>) {
    && x.version == start + |history|
    && |x.diffs| <= |history|
    && forall i :: 0 <= i < |x.diffs| ==> history[|history| - |x.diffs| + i] == Some(x.diffs[i])
  }

  lemma EventKeepsTail<E>(x: Stored<E>, e: Event<E>, start: int, history: seq<Option<E>>)
    requires Tail(x, start, history)
    ensures Tail(Happens(x, e), start, history + Made(x, e))
  {
  }

  lemma {:induction false} RunKeepsTail<E>(x: Stored<E>, es: seq<Event<E>>, start: int, history: seq<Option<E>>)
    requires Tail(x, start, history)
    ensures Tail(After(x, es), start, History(x, es, history))
    decreases |es|
  {
    if es != [] {
      EventKeepsTail(x, es[0], start, history);
      RunKeepsTail(Happens(x, es[0]), es[1..], start, history + Made(x, es[0]));
    }
  }

  /** In any mixture of saves over HTTP and sessions, the covering diffs are exactly what made the versions from the
      client's on, and they are handed over whenever the log reaches back that far. */
  lemma CoveringIsTheHistory<E>(x: Stored<E>, es: seq<Event<E>>, start: int, history: seq<Option<E>>, v: int)
    requires Tail(x, start, history) && start <= v
    ensures var y := After(x, es);
      var full := History(x, es, history);
      var m := Covering(y, v);
      && y.version == start + |full|
      && (m.Some? <==> y.version - |y.diffs| <= v < y.version)
      && (m.Some? ==> |m.value| == y.version - v)
      && (m.Some? ==> forall i :: 0 <= i < |m.value| ==> full[v - start + i] == Some(m.value[i]))
  {
    RunKeepsTail(x, es, start, history);
    hide After, History;
  }

  class StoredDocument<E> {
    var version: int
    var diffs: seq<E>

    constructor (v: int)
      ensures State() == Stored(v, [])
    {
      version, diffs := v, [];
    }

    ghost function State(): Stored<E>
      reads this
    {
      Stored(version, diffs)
    }

    /** `save_document`, as far as version and log go. */
    method SaveDocument(s: Save<E>) returns (saved: bool)
      modifies this
      ensures State() == Saved(old(State()), s) && saved == !Refused(old(State()), s)
    {
      if s.expected.Some? && version != s.expected.value {
        return false;
      }
      if s.encrypted {
        if |diffs| > 0 {
          diffs := [];
        }
      } else {
        var log := diffs + [s.entry];
        diffs := Last(log, DIRECT_HISTORY_LENGTH);
      }
      version := version + 1;
      return true;
    }

    method CoveringDiffs(v: int) returns (m: Option<seq<E>>)
      ensures m == Covering(State(), v)
    {
      m := None;
      if version > v {
        var needed := version - v;
        if v + |diffs| >= version {
          m := Some(Last(diffs, needed));
        }
      }
    }
  }
}
