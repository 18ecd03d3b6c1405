/** The handlers for encrypted documents on the session object: snapshots and re-keying, field by field. */
module SealedSession {
  import opened Prelude
  import opened Access
  import opened Comments
  import opened Link
  import opened Documents
  import opened Session
  import opened SessionObject
  import opened Epoch

  lemma OthersMail(lines: map<nat, Line>, roles: map<nat, Role>, id: nat, msg: Msg)
    ensures Deliver(lines, ToOthers(roles, id, [msg])) == Deliver(lines, ToRest(roles, msg, id))
  {
    DeliverSame(lines, ToOthers(roles, id, [msg]), ToRest(roles, msg, id));
  }

  lemma NoticesMail(lines: map<nat, Line>, roles: map<nat, Role>, id: nat, done: Msg)
    requires id in roles
    ensures Deliver(lines, RekeyNotices(roles, id, done))
         == Deliver(Deliver(lines, ToRest(roles, Refetch, id)), map[id := [done]])
  {
    hide Deliver;
    var mail := RekeyNotices(roles, id, done);
    DeliverTwice(lines, ToRest(roles, Refetch, id), map[id := [done]]);
    DeliverSame(lines, mail, Join(ToRest(roles, Refetch, id), map[id := [done]]));
  }

  /** A session with the key rows of its document. */
  class SealedDocument<N> {
    const session: DocumentSession<N>
    var keys: map<int, KeyRow>

    constructor (open: DocumentSession<N>, rows: map<int, KeyRow>)
      ensures session == open && keys == rows
    {
      session, keys := open, rows;
    }

    ghost function State(): Vault<N>
      reads this, session
    {
      Vault(session.State(), keys)
    }

    // ---- Snapshots

    /** The assignments of an accepted snapshot. */
    method TakeSnapshot(m: Snapshot<N>)
      requires m.content.Some? && !m.content.value.OtherJson?
      modifies session`doc
      ensures session.doc == StoreSnapshot(old(session.doc), m)
    {
      var doc := session.doc;
      match m.content.value {
        case Text(text) => doc := doc.(content := Cipher(text));
        case Tree(value) => doc := doc.(content := Plain(value));
      }
      doc := doc.(comments := if m.comments.Some? then Stored(m.comments.value, map[]) else Plain(map[]));
      doc := doc.(bibliography := if m.bibliography.Some? then Stored(m.bibliography.value, map[]) else Plain(map[]));
      if m.title.Some? {
        match m.title.value {
          case Text(text) => doc := doc.(title := text);
          case Tree(printed) => doc := doc.(title := printed);
          case OtherJson =>
        }
      }
      doc := doc.(snapshotVersion := m.v);
      session.doc := doc;
    }

    method SaveSnapshot(cfg: Config<N>, m: Snapshot<N>)
      requires m.content.Some? && !m.content.value.OtherJson?
      modifies session
      ensures var c := old(session.State());
        session.State() == Save(cfg, c.(doc := StoreSnapshot(c.doc, m)), true)
    {
      hide Save, StoreSnapshot;
      TakeSnapshot(m);
      session.SaveDocument(cfg, true);
    }

    method Announce(id: nat, msg: Msg)
      requires session.room.Valid()
      modifies session.room.links.Values
      ensures session.room.Valid()
      ensures session.room.Lines() == Deliver(old(session.room.Lines()), ToOthers(session.room.roles, id, [msg]))
    {
      hide Deliver, ToOthers, ToRest;
      OthersMail(session.room.Lines(), session.room.roles, id, msg);
      session.room.NotifyOthers(msg, id);
    }

    /** The snapshot is stored, saved by force, and announced. */
    method StoreAndAnnounce(cfg: Config<N>, id: nat, m: Snapshot<N>)
      requires session.room.Valid() && id in session.room.links
      requires m.content.Some? && !m.content.value.OtherJson?
      modifies session, session.room.links.Values
      ensures session.room.Valid()
      ensures var c := old(session.State());
        session.State() == Save(cfg, c.(doc := StoreSnapshot(c.doc, m)), true)
      ensures session.room.Lines() == Deliver(old(session.room.Lines()),
                ToOthers(session.room.roles, id, [SnapshotReceived(old(session.doc.version))]))
    {
      hide State, Deliver, Save, StoreSnapshot, ToOthers;
      var v := session.doc.version;
      SaveSnapshot(cfg, m);
      Announce(id, SnapshotReceived(v));
    }

    method HandleSnapshotMessage(cfg: Config<N>, id: nat, m: Snapshot<N>) returns (ok: bool)
      requires session.room.Valid() && id in session.room.links
      modifies session, session.room.links.Values
      ensures var e := HandleSnapshot(cfg, old(session.State()), session.room.roles, id, m);
        session.Did(e, old(session.room.Lines())) && ok == e.ok
    {
      hide Deliver, Save, StoreSnapshot, ToOthers, Nothing, SnapshotOk, ValidParams;
      var doc := session.doc;
      ok := true;
      if session.room.roles[id].rights == Write && MayWrite(cfg, doc) && doc.e2ee && cfg.e2eeEnabled
         && doc.salt.Some? && SnapshotOk(doc, m) {
        SnapshotFacts(doc, m);
        StoreAndAnnounce(cfg, id, m);
      } else {
        session.room.LinesAreSized();
        DeliverToNone(session.room.Lines(), session.room.roles);
        if session.room.roles[id].rights == Write && MayWrite(cfg, doc) && doc.e2ee && cfg.e2eeEnabled
           && doc.salt.None? {
          ok := !ValidParams(m.salt, Value(if doc.iterations != 0 then doc.iterations else MIN_ITERATIONS));
        }
      }
    }

    // ---- Re-keying

    /** The transaction: an entry without the flag raises, and then the rows are as they were. */
    method WriteRows(doc: Doc<N>, es: seq<Envelope>, salt: Bytes) returns (committed: bool)
      requires forall i :: 0 <= i < |es| ==> EnvelopeOk(es[i])
      modifies this`keys, session`row
      ensures committed == Complete(es)
      ensures session.row == if committed then doc else old(session.row)
      ensures committed ==> keys == WriteKeys(old(keys), es, salt)
      ensures !committed ==> keys == old(keys)
    {
      var before, rowBefore := keys, session.row;
      session.row := doc;
      for i := 0 to |es|
        invariant forall j :: 0 <= j < i ==> es[j].withMaster.IsBool?
        invariant keys == WriteKeys(before, es[..i], salt)
        invariant session.row == doc
      {
        if !es[i].withMaster.IsBool? {
          keys, session.row := before, rowBefore;
          return false;
        }
        WriteOneMore(before, es, i, salt);
        keys := keys[es[i].holder.value := KeyRow(es[i].key.value, es[i].withMaster.b, salt)];
      }
      assert es[..|es|] == es;
      return true;
    }

    /** The assignments of a re-key, made whether or not the transaction commits. */
    method TakeRekey(m: Rekey)
      requires RekeyOk(session.doc, m)
      modifies session`doc
      ensures session.doc == RekeyDoc(old(session.doc), m)
    {
      var doc := session.doc.(salt := m.salt, iterations := m.iterations.n);
      doc := doc.(content := Cipher(m.content.value));
      doc := doc.(comments := Cipher(m.comments.value));
      doc := doc.(bibliography := Cipher(m.bibliography.value));
      if m.title.Some? {
        doc := doc.(title := m.title.value.value);
      }
      doc := doc.(diffs := [], snapshotVersion := m.v);
      session.doc := doc;
    }

    method AnnounceRekey(id: nat, done: Msg)
      requires session.room.Valid() && id in session.room.links
      modifies session.room.links.Values
      ensures session.room.Valid()
      ensures session.room.Lines() == Deliver(old(session.room.Lines()), RekeyNotices(session.room.roles, id, done))
    {
      hide Deliver, ToRest, RekeyNotices;
      NoticesMail(session.room.Lines(), session.room.roles, id, done);
      session.room.NotifyOthers(Refetch, id);
      session.room.SendTo(id, done);
    }

    method Commit(m: Rekey) returns (committed: bool)
      requires RekeyOk(session.doc, m)
      modifies this`keys, session`doc, session`row
      ensures State() == Rekeyed(old(State()), m) && committed == Complete(m.keys.value)
    {
      hide WriteKeys, RekeyDoc;
      RekeyFacts(session.doc, m);
      TakeRekey(m);
      committed := WriteRows(session.doc, m.keys.value, m.salt.value);
    }

    method CarryOut(id: nat, m: Rekey)
      requires session.room.Valid() && id in session.room.links && RekeyOk(session.doc, m)
      modifies this, session, session.room.links.Values
      ensures State() == Rekeyed(old(State()), m) && session.room.Valid()
      ensures session.room.Lines() == Deliver(old(session.room.Lines()),
                                              RekeyMail(session.room.roles, id, old(session.doc.version), m))
    {
      hide Deliver, Nothing, Rekeyed, RekeyNotices;
      RekeyFacts(session.doc, m);
      var v := session.doc.version;
      var committed := Commit(m);
      if committed {
        AnnounceRekey(id, RekeyDone(v, m.salt.value, m.iterations.n));
      } else {
        session.room.LinesAreSized();
        DeliverToNone(session.room.Lines(), session.room.roles);
      }
    }

    method HandleRekeyMessage(cfg: Config<N>, id: nat, m: Rekey, allowed: set<int>)
      requires session.room.Valid() && id in session.room.links
      modifies this, session, session.room.links.Values
      ensures var e := HandleRekey(cfg, old(State()), session.room.roles, id, m, allowed);
        && State() == e.vault && session.room.Valid()
        && session.room.Lines() == Deliver(old(session.room.Lines()), e.mail)
    {
      hide Deliver, Nothing, RekeyOk, Rekeyed, RekeyMail;
      if session.doc.e2ee && cfg.e2eeEnabled && session.room.roles[id].isOwner && RekeyOk(session.doc, m) {
        RekeyFacts(session.doc, m);
        var holders := Holders(m.keys.value);
        if keys.Keys <= holders && holders <= allowed {
          CarryOut(id, m);
          return;
        }
      }
      session.room.LinesAreSized();
      DeliverToNone(session.room.Lines(), session.room.roles);
    }
  }

  lemma RekeyFacts<N>(doc: Doc<N>, m: Rekey)
    requires RekeyOk(doc, m)
    ensures m.keys.Some? && m.salt.Some? && m.iterations.Value?
    ensures forall i :: 0 <= i < |m.keys.value| ==> EnvelopeOk(m.keys.value[i])
  {
  }

  lemma SnapshotFacts<N>(doc: Doc<N>, m: Snapshot<N>)
    requires doc.salt.Some? && SnapshotOk(doc, m)
    ensures m.content.Some? && !m.content.value.OtherJson? && m.v == Some(doc.version)
    ensures StoreSnapshot(doc, m).version == doc.version
  {
  }

  lemma WriteOneMore(rows: map<int, KeyRow>, es: seq<Envelope>, i: nat, salt: Bytes)
    requires i < |es| && Complete(es[..i + 1]) && forall j :: 0 <= j < |es| ==> EnvelopeOk(es[j])
    ensures Complete(es[..i])
    ensures WriteKeys(rows, es[..i + 1], salt)
         == WriteKeys(rows, es[..i], salt)[es[i].holder.value := KeyRow(es[i].key.value, es[i].withMaster.b, salt)]
    decreases i
  {
    assert forall j :: 0 <= j < i ==> es[..i][j] == es[..i + 1][j];
    if i > 0 {
      assert EnvelopeOk(es[0]);
      assert es[..i + 1][1..] == es[1..][..i] && es[..i][1..] == es[1..][..i - 1];
      WriteOneMore(rows[es[0].holder.value := KeyRow(es[0].key.value, es[0].withMaster.b, salt)], es[1..], i - 1, salt);
    }
  }
}
