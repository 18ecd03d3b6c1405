/**
 The consumer as the object it is: one session whose fields the handlers update in place, and one connection object
 for each participant. Every method is tied to the function of `Session` that specifies it.
 */
module SessionObject {
  import opened Prelude
  import opened Access
  import opened Comments
  import opened Link
  import opened Documents
  import opened Session

  // ---- What a handler puts on the wires

  datatype Line = Line(conn: Conn<Msg>, sent: seq<Frame<Msg>>)

  type Mail = map<nat, seq<Msg>>

  function For(mail: Mail, k: nat): seq<Msg> {
    if k in mail then mail[k] else []
  }

  function Transmit(l: Line, msgs: seq<Msg>): Line {
    Line(SendAll(l.conn, msgs), l.sent + StampAll(l.conn, msgs))
  }

  function Deliver(lines: map<nat, Line>, mail: Mail): map<nat, Line> {
    map k | k in lines :: Transmit(lines[k], For(mail, k))
  }

  function Join(a: Mail, b: Mail): Mail {
    map k | k in a.Keys + b.Keys :: For(a, k) + For(b, k)
  }

  ghost predicate Sized(lines: map<nat, Line>) {
    forall k :: k in lines ==> |lines[k].conn.lastTen| <= RING_SIZE
  }

  lemma TransmitNone(l: Line)
    requires |l.conn.lastTen| <= RING_SIZE
    ensures Transmit(l, []) == l
  {
    SendNone(l.conn);
  }

  lemma TransmitOne(l: Line, msg: Msg)
    requires |l.conn.lastTen| <= RING_SIZE
    ensures Transmit(l, [msg]) == Line(Send(l.conn, msg), l.sent + [Stamp(l.conn, msg)])
  {
    SendNone(l.conn);
    SendAllAppend(l.conn, [], msg);
    assert [] + [msg] == [msg];
  }

  lemma TransmitTwice(l: Line, a: seq<Msg>, b: seq<Msg>)
    ensures Transmit(Transmit(l, a), b) == Transmit(l, a + b)
  {
    LastAppend(l.conn.lastTen + a, b, RING_SIZE);
    assert l.conn.lastTen + a + b == l.conn.lastTen + (a + b);
    assert StampAll(l.conn, a + b) == StampAll(l.conn, a) + StampAll(SendAll(l.conn, a), b);
  }

  /** Two deliveries in a row are one delivery of both. */
  lemma DeliverTwice(lines: map<nat, Line>, a: Mail, b: Mail)
    ensures Deliver(Deliver(lines, a), b) == Deliver(lines, Join(a, b))
  {
    forall k | k in lines ensures Deliver(Deliver(lines, a), b)[k] == Deliver(lines, Join(a, b))[k] {
      TransmitTwice(lines[k], For(a, k), For(b, k));
      assert For(Join(a, b), k) == For(a, k) + For(b, k);
    }
    hide Transmit;
  }

  /** A delivery is determined by what each participant gets. */
  lemma DeliverSame(lines: map<nat, Line>, a: Mail, b: Mail)
    requires forall k :: k in lines ==> For(a, k) == For(b, k)
    ensures Deliver(lines, a) == Deliver(lines, b)
  {
    hide Transmit;
  }

  lemma DeliverNothing(lines: map<nat, Line>, mail: Mail)
    requires Sized(lines) && forall k :: k in lines ==> For(mail, k) == []
    ensures Deliver(lines, mail) == lines
  {
    hide Transmit;
    forall k | k in lines ensures Transmit(lines[k], []) == lines[k] {
      TransmitNone(lines[k]);
    }
  }

  function Upto(mail: Mail, order: seq<nat>): Mail {
    map k | k in mail && k in order :: mail[k]
  }

  /** Serving one more participant of an order without repetitions. */
  lemma DeliverNext(lines: map<nat, Line>, mail: Mail, order: seq<nat>, i: nat)
    requires Distinct(order) && i < |order|
    ensures Deliver(Deliver(lines, Upto(mail, order[..i])), map[order[i] := For(mail, order[i])])
         == Deliver(lines, Upto(mail, order[..i + 1]))
  {
    hide Deliver;
    var one := map[order[i] := For(mail, order[i])];
    DeliverTwice(lines, Upto(mail, order[..i]), one);
    var joined := Join(Upto(mail, order[..i]), one);
    forall k | k in lines ensures For(joined, k) == For(Upto(mail, order[..i + 1]), k) {
      assert order[..i + 1] == order[..i] + [order[i]];
    }
    DeliverSame(lines, joined, Upto(mail, order[..i + 1]));
  }

  lemma UptoNone(lines: map<nat, Line>, mail: Mail)
    requires Sized(lines)
    ensures Deliver(lines, Upto(mail, [])) == lines
  {
    DeliverNothing(lines, Upto(mail, []));
  }

  lemma UptoAll(lines: map<nat, Line>, mail: Mail, order: seq<nat>)
    requires forall k :: k in lines ==> k in order
    ensures Deliver(lines, Upto(mail, order)) == Deliver(lines, mail)
  {
    DeliverSame(lines, Upto(mail, order), mail);
  }

  lemma AfterThat(lines: map<nat, Line>, id: nat, msgs: seq<Msg>, msg: Msg)
    ensures Deliver(Deliver(lines, map[id := msgs]), map[id := [msg]]) == Deliver(lines, map[id := msgs + [msg]])
  {
    hide Deliver;
    DeliverTwice(lines, map[id := msgs], map[id := [msg]]);
    DeliverSame(lines, Join(map[id := msgs], map[id := [msg]]), map[id := msgs + [msg]]);
  }

  lemma SaveWriteKeepsFlags<N>(cfg: Config<N>, core: Core<N>)
    ensures SaveWrite(cfg, core).doc.e2ee == core.doc.e2ee && SaveWrite(cfg, core).doc.version == core.doc.version
  {
    hide WriteRow;
  }

  lemma DeliverToNone(lines: map<nat, Line>, roles: map<nat, Role>)
    requires Sized(lines)
    ensures Deliver(lines, Nothing(roles)) == lines
  {
    DeliverNothing(lines, Nothing(roles));
  }

  lemma DeliverToOne(lines: map<nat, Line>, roles: map<nat, Role>, id: nat, msgs: seq<Msg>)
    requires id in roles
    ensures Deliver(lines, ToOne(roles, id, msgs)) == Deliver(lines, map[id := msgs])
  {
    DeliverSame(lines, ToOne(roles, id, msgs), map[id := msgs]);
  }

  /** The guard in `send_updates` skips the filter only where it would change nothing. */
  lemma SanitizeIsIdentity(d: Diff, role: Role, comments: CommentMap)
    ensures d.cu.None? || (role.rights != ReadWithoutComments && role.rights !in OWN_COMMENTS_ONLY)
            ==> Sanitize(d, role, comments) == d
  {
  }

  /** The copies of a diff that everyone but its sender gets. */
  function Copies(d: Diff, roles: map<nat, Role>, sender: nat, filtered: bool, comments: CommentMap): Mail {
    map k | k in roles && k != sender :: [DiffMsg(if filtered then Sanitize(d, roles[k], comments) else d)]
  }

  function Asked(writer: Option<nat>, v: int): Mail {
    if writer.Some? then map[writer.value := [RequestSnapshot(v)]] else map[]
  }

  lemma FirstWriterAt(order: seq<nat>, roles: map<nat, Role>, i: nat)
    requires i <= |order|
    requires forall j :: 0 <= j < i ==> order[j] in roles && roles[order[j]].rights != Write
    ensures FirstWriter(order, roles) == FirstWriter(order[i..], roles)
  {
    if i > 0 {
      FirstWriterAt(order[1..], roles, i - 1);
      assert order[1..][i - 1..] == order[i..];
    }
  }

  function ErrorNotices(roles: map<nat, Role>, error: Msg, sender: nat): Mail {
    map k | k in roles && k != sender :: [Refetch, error]
  }

  function ToRest(roles: map<nat, Role>, msg: Msg, sender: nat): Mail {
    map k | k in roles && k != sender :: [msg]
  }

  lemma CopyFor(d: Diff, roles: map<nat, Role>, sender: nat, filtered: bool, comments: CommentMap, k: nat)
    requires k in roles
    ensures For(Copies(d, roles, sender, filtered, comments), k)
         == if k == sender then [] else [DiffMsg(if filtered then Sanitize(d, roles[k], comments) else d)]
  {
  }

  function Confirmation(id: nat, d: Diff): Mail {
    if d.rid.Some? then map[id := [ConfirmDiff(d.rid.value)]] else map[]
  }

  lemma EncryptedFor<N>(cfg: Config<N>, core: Core<N>, order: seq<nat>, roles: map<nat, Role>, id: nat, d: Diff, k: nat)
    requires id in roles && cfg.saveInterval > 0
    requires d.salt.Some? && core.doc.salt == d.salt && d.ep.Some?
    ensures var v := Log(core, d).doc.version;
      var asked := if v % cfg.saveInterval == 0 then FirstWriter(order, roles) else None;
      For(AcceptEncrypted(cfg, core, order, roles, id, d).mail, k)
      == For(Asked(asked, v), k) + For(Confirmation(id, d), k) + For(Copies(d, roles, id, false, map[]), k)
  {
    hide Log, FirstWriter;
    FirstWriterIsThere(order, roles);
  }

  lemma {:induction false} ThreeDeliveries(lines: map<nat, Line>, mail: Mail, a: Mail, b: Mail, c: Mail)
    requires forall k :: For(mail, k) == For(a, k) + For(b, k) + For(c, k)
    ensures Deliver(lines, mail) == Deliver(Deliver(Deliver(lines, a), b), c)
  {
    hide Deliver, For, Join;
    DeliverTwice(lines, a, b);
    DeliverTwice(lines, Join(a, b), c);
    forall k ensures For(mail, k) == For(Join(Join(a, b), c), k) {
      JoinFor(a, b, k);
      JoinFor(Join(a, b), c, k);
    }
    DeliverSame(lines, mail, Join(Join(a, b), c));
  }

  /** An accepted encrypted diff goes out in three sends: the request, the confirmation, the copies. */
  lemma EncryptedMail<N>(cfg: Config<N>, core: Core<N>, order: seq<nat>, roles: map<nat, Role>, id: nat, d: Diff,
                         lines: map<nat, Line>)
    requires id in roles && cfg.saveInterval > 0
    requires d.salt.Some? && core.doc.salt == d.salt && d.ep.Some?
    ensures var v := Log(core, d).doc.version;
      var asked := if v % cfg.saveInterval == 0 then FirstWriter(order, roles) else None;
      Deliver(lines, AcceptEncrypted(cfg, core, order, roles, id, d).mail)
      == Deliver(Deliver(Deliver(lines, Asked(asked, v)), Confirmation(id, d)), Copies(d, roles, id, false, map[]))
  {
    var v := Log(core, d).doc.version;
    var asked := if v % cfg.saveInterval == 0 then FirstWriter(order, roles) else None;
    hide *;
    var mail := AcceptEncrypted(cfg, core, order, roles, id, d).mail;
    forall k ensures For(mail, k) == For(Asked(asked, v), k) + For(Confirmation(id, d), k)
                                     + For(Copies(d, roles, id, false, map[]), k) {
      EncryptedFor(cfg, core, order, roles, id, d, k);
    }
    ThreeDeliveries(lines, mail, Asked(asked, v), Confirmation(id, d), Copies(d, roles, id, false, map[]));
  }

  lemma JoinFor(a: Mail, b: Mail, k: nat)
    ensures For(Join(a, b), k) == For(a, k) + For(b, k)
  {
  }

  lemma FirstWriterIsThere(order: seq<nat>, roles: map<nat, Role>)
    ensures FirstWriter(order, roles).Some? ==> FirstWriter(order, roles).value in roles
  {
  }

  lemma ErrorMail(lines: map<nat, Line>, roles: map<nat, Role>, id: nat, error: Msg)
    requires id in roles
    ensures Deliver(Deliver(Deliver(lines, map[id := [Refetch]]), map[id := [error]]), ErrorNotices(roles, error, id))
         == Deliver(lines, ToAll(roles, [Refetch, error]))
  {
    ThreeDeliveries(lines, ToAll(roles, [Refetch, error]), map[id := [Refetch]], map[id := [error]],
                    ErrorNotices(roles, error, id));
  }

  lemma PlainMail(lines: map<nat, Line>, roles: map<nat, Role>, id: nat, d: Diff, comments: CommentMap)
    requires id in roles && d.rid.Some?
    ensures Deliver(Deliver(lines, Confirmation(id, d)), Copies(d, roles, id, true, comments))
         == Deliver(lines, ReadableMail(roles, id, d, comments))
  {
    hide Sanitize, Deliver;
    var mail := ReadableMail(roles, id, d, comments);
    DeliverTwice(lines, Confirmation(id, d), Copies(d, roles, id, true, comments));
    DeliverSame(lines, mail, Join(Confirmation(id, d), Copies(d, roles, id, true, comments)));
  }

  function Heard(l: Line, msg: Incoming<Up>): Line {
    Line(Receive(l.conn, msg, NOTICES), l.sent + ReceiveFrames(l.conn, msg, NOTICES))
  }

  lemma DropRemoves(order: seq<nat>, id: nat)
    requires Distinct(order)
    ensures Distinct(Drop(order, id))
    ensures forall k :: k in Drop(order, id) <==> k in order && k != id
  {
    if order != [] {
      var rest := order[1..];
      assert forall i :: 0 <= i < |rest| ==> rest[i] == order[i + 1];
      assert Distinct(rest) && order[0] !in rest;
      DropRemoves(rest, id);
      assert forall k :: k in order <==> k == order[0] || k in rest;
    }
  }

  lemma CheckMailKeys<N>(cfg: Config<N>, core: Core<N>, roles: map<nat, Role>, id: nat, v: Option<int>)
    requires id in roles
    ensures CheckVersion(cfg, core, roles, id, v, false).mail.Keys == roles.Keys
  {
    hide Missing, Save;
  }

  lemma GreetFor<N>(cfg: Config<N>, core: Core<N>, roles: map<nat, Role>, id: nat, connection: int, v: Option<int>,
                    one: Mail, k: nat)
    requires id in roles
    requires one == map[id := [Subscribed, if connection < 1 then SessionInfo(id, roles[id].rights)
                                                             else AccessRight(roles[id].rights)]]
    ensures var e := Greet(cfg, core, roles, id, connection, v);
      var checked := CheckVersion(cfg, core, roles, id, v, false);
      var listed := (connection >= 1 || checked.ok) && roles[id].rights in CAN_COMMUNICATE;
      For(e.mail, k) == For(one, k) + (if connection < 1 then For(checked.mail, k) else [])
                        + (if listed then For(ParticipantList(roles), k) else [])
  {
    CheckMailKeys(cfg, core, roles, id, v);
    hide CheckVersion;
  }

  function Unless(skip: bool, mail: Mail): Mail {
    if skip then map[] else mail
  }

  /** The sends of `subscribe`: the greeting, for a first subscription the reconciliation, and, if that went well, the
      participant list. */
  lemma GreetMail<N>(cfg: Config<N>, core: Core<N>, roles: map<nat, Role>, id: nat, connection: int, v: Option<int>,
                     lines: map<nat, Line>)
    requires id in roles
    ensures var checked := CheckVersion(cfg, core, roles, id, v, false);
      var info := if connection < 1 then SessionInfo(id, roles[id].rights) else AccessRight(roles[id].rights);
      var listed := (connection >= 1 || checked.ok) && roles[id].rights in CAN_COMMUNICATE;
      var greeted := Deliver(Deliver(lines, map[id := [Subscribed]]), map[id := [info]]);
      Deliver(lines, Greet(cfg, core, roles, id, connection, v).mail)
      == Deliver(Deliver(greeted, Unless(connection >= 1, checked.mail)), Unless(!listed, ParticipantList(roles)))
  {
    hide CheckVersion, Deliver, ParticipantList, Greet;
    var checked := CheckVersion(cfg, core, roles, id, v, false);
    var info := if connection < 1 then SessionInfo(id, roles[id].rights) else AccessRight(roles[id].rights);
    var listed := (connection >= 1 || checked.ok) && roles[id].rights in CAN_COMMUNICATE;
    var one: Mail := map[id := [Subscribed, info]];
    assert [Subscribed] + [info] == [Subscribed, info];
    AfterThat(lines, id, [Subscribed], info);
    var mail := Greet(cfg, core, roles, id, connection, v).mail;
    forall k ensures For(mail, k) == For(one, k) + For(Unless(connection >= 1, checked.mail), k)
                                     + For(Unless(!listed, ParticipantList(roles)), k) {
      GreetFor(cfg, core, roles, id, connection, v, one, k);
    }
    ThreeDeliveries(lines, mail, one, Unless(connection >= 1, checked.mail), Unless(!listed, ParticipantList(roles)));
  }

  lemma GreetCore<N>(cfg: Config<N>, core: Core<N>, roles: map<nat, Role>, id: nat, connection: int, v: Option<int>)
    requires id in roles
    ensures var e := Greet(cfg, core, roles, id, connection, v);
      var checked := CheckVersion(cfg, core, roles, id, v, false);
      e.core == (if connection < 1 then checked.core else core) && e.ok == (connection >= 1 || checked.ok)
  {
    hide CheckVersion, ParticipantList;
  }

  lemma PatchFailsIsFine<N>(cfg: Config<N>, core: Core<N>, roles: map<nat, Role>, id: nat)
    requires id in roles
    ensures PatchFails(cfg, core, roles, id).ok
  {
  }

  lemma SaveIsUpToDate<N>(cfg: Config<N>, core: Core<N>)
    ensures Save(cfg, core, false).lastSaved == Save(cfg, core, false).doc.version
  {
  }

  method UpdateEntries(bibliography: Bibliography, us: seq<BibUpdate>) returns (result: Bibliography, ok: bool)
    ensures (result, ok) == UpdateBibliography(bibliography, us)
  {
    result, ok := bibliography, true;
    var i := 0;
    while i < |us|
      invariant 0 <= i <= |us| && ok
      invariant UpdateBibliography(bibliography, us) == UpdateBibliography(result, us[i..])
    {
      assert us[i..][0] == us[i] && us[i..][1..] == us[i + 1..];
      if us[i].id.Some? {
        match us[i].op
        case NoBibType =>
          ok := false;
          return;
        case OtherBib =>
        case SetReference(reference) =>
          if reference.None? {
            ok := false;
            return;
          }
          result := result[Canon(us[i].id.value) := reference.value];
        case DeleteReference =>
          if Canon(us[i].id.value) !in result {
            ok := false;
            return;
          }
          result := result - {Canon(us[i].id.value)};
      }
      i := i + 1;
    }
  }

  method CopyOf(d: Diff, role: Role, filtered: bool, comments: CommentMap) returns (msg: Diff)
    ensures msg == if filtered then Sanitize(d, role, comments) else d
  {
    msg := d;
    if filtered && d.cu.Some? && (role.rights == ReadWithoutComments || role.rights in OWN_COMMENTS_ONLY) {
      msg := Sanitize(d, role, comments);
    } else {
      SanitizeIsIdentity(d, role, comments);
    }
  }

  /** Every participant is listed once and has a role and a connection of its own. */
  ghost predicate Wired(order: seq<nat>, roles: map<nat, Role>, links: map<nat, Connection<Msg>>) {
    && roles.Keys == links.Keys
    && Distinct(order) && (forall k :: k in order <==> k in links)
    && (forall k, j :: k in links && j in links && k != j ==> links[k] != links[j])
  }

  lemma WiredWith(order: seq<nat>, roles: map<nat, Role>, links: map<nat, Connection<Msg>>, role: Role,
                  link: Connection<Msg>)
    requires Wired(order, roles, links) && link !in links.Values
    ensures var id := NewId(order);
      id !in links && Wired(order + [id], roles[id := role], links[id := link])
  {
    NewIdIsFresh(order);
    hide NewId;
  }

  lemma WiredWithout(order: seq<nat>, roles: map<nat, Role>, links: map<nat, Connection<Msg>>, id: nat)
    requires Wired(order, roles, links)
    ensures Wired(Drop(order, id), roles - {id}, links - {id})
  {
    DropRemoves(order, id);
    hide Drop;
  }

  /** `update_document_images`, row by row. */
  method UpdateRows(rows: ImageRows, us: seq<ImageUpdate>, role: Role) returns (result: ImageRows, ok: bool)
    ensures (result, ok) == UpdateImages(rows, us, role)
  {
    result, ok := rows, true;
    for i := 0 to |us|
      invariant ok && UpdateImages(rows, us, role) == UpdateImages(result, us[i..], role)
    {
      assert us[i..][0] == us[i] && us[i..][1..] == us[i + 1..];
      var u := us[i];
      if !u.id.NoImageId? {
        match u.op
        case NoImageType => return result, false;
        case OtherImage =>
        case DeleteImage =>
          if u.id.BadImageId? {
            return result, false;
          }
          if u.id.ImageId? {
            result := result - {u.id.n};
          }
        case SetImage(mine, title, copyright) =>
          if u.id.BadImageId? || !role.stored {
            return result, false;
          }
          if u.id.ImageId? && mine {
            if !Given(title) || !Given(copyright) {
              return result, false;
            }
            result := result[u.id.n := ImageRow(PyStr(title.value), copyright.value)];
          }
      }
    }
  }

  /** The participants of a session in the order they joined, each with the rights it acts with and its connection. */
  class Participants {
    var order: seq<nat>
    var roles: map<nat, Role>
    var links: map<nat, Connection<Msg>>

    ghost predicate Valid()
      reads this, links.Values
    {
      Wired(order, roles, links) && forall k :: k in links ==> links[k].Valid()
    }

    ghost function Lines(): map<nat, Line>
      reads this, links.Values
    {
      map k | k in links :: Line(links[k].State(), links[k].sent)
    }

    constructor ()
      ensures Valid() && order == [] && links == map[]
    {
      order, roles, links := [], map[], map[];
    }

    lemma LinesAreSized()
      requires Valid()
      ensures Sized(Lines())
    {
    }

    /** `receive` on one connection, before anything is handled. */
    method Hear(id: nat, msg: Incoming<Up>) returns (verdict: Verdict<Up>)
      requires Valid() && id in links
      modifies links[id]
      ensures Valid() && verdict == Judge(old(Lines())[id].conn, msg)
      ensures Lines() == old(Lines())[id := Heard(old(Lines())[id], msg)]
    {
      hide Judge, Receive, ReceiveFrames;
      var link := links[id];
      verdict := link.ReceiveMessage(msg, NOTICES);
    }

    /** The new participant's id is one more than the largest. */
    method Add(role: Role, link: Connection<Msg>) returns (id: nat)
      requires Valid() && link.Valid() && link !in links.Values
      modifies this
      ensures Valid() && id == NewId(old(order))
      ensures order == old(order) + [id] && roles == old(roles)[id := role] && links == old(links)[id := link]
      ensures Lines() == old(Lines())[id := Line(link.State(), link.sent)]
    {
      WiredWith(order, roles, links, role, link);
      hide NewId, Wired, Connection.Valid, Connection.State;
      id := NewId(order);
      order, roles, links := order + [id], roles[id := role], links[id := link];
    }

    method Remove(id: nat)
      requires Valid() && id in links
      modifies this
      ensures Valid() && order == Drop(old(order), id) && roles == old(roles) - {id} && links == old(links) - {id}
      ensures Lines() == old(Lines()) - {id}
    {
      WiredWithout(order, roles, links, id);
      hide Drop, Wired, Connection.Valid, Connection.State;
      order, roles, links := Drop(order, id), roles - {id}, links - {id};
    }

    method SendTo(id: nat, msg: Msg)
      requires Valid() && id in links
      modifies links[id]
      ensures Valid() && Lines() == Deliver(old(Lines()), map[id := [msg]])
    {
      hide SendAll, StampAll, Transmit, Send, Stamp;
      ghost var was := Lines();
      var link := links[id];
      link.SendMessage(msg);
      TransmitOne(was[id], msg);
      forall k | k in links && k != id ensures Lines()[k] == Transmit(was[k], []) {
        TransmitNone(was[k]);
      }
    }

    lemma SendNothing()
      requires Valid()
      ensures Deliver(Lines(), map[]) == Lines()
    {
      DeliverNothing(Lines(), map[]);
    }

    method SendCopy(k: nat, d: Diff, sender: nat, filtered: bool, comments: CommentMap)
      requires Valid() && k in links
      modifies links[k]
      ensures Valid()
      ensures Lines() == Deliver(old(Lines()), map[k := For(Copies(d, roles, sender, filtered, comments), k)])
    {
      CopyFor(d, roles, sender, filtered, comments, k);
      hide Deliver, Sanitize, Copies;
      if k != sender {
        var msg := CopyOf(d, roles[k], filtered, comments);
        SendTo(k, DiffMsg(msg));
      } else {
        LinesAreSized();
        DeliverNothing(Lines(), map[k := []]);
      }
    }

    /** `send_updates` for a diff. */
    method SendUpdates(d: Diff, sender: nat, filtered: bool, comments: CommentMap)
      requires Valid()
      modifies links.Values
      ensures Valid()
      ensures Lines() == Deliver(old(Lines()), Copies(d, roles, sender, filtered, comments))
    {
      hide Deliver, Copies, Upto, For;
      ghost var was := Lines();
      ghost var mail := Copies(d, roles, sender, filtered, comments);
      LinesAreSized();
      UptoNone(was, mail);
      for i := 0 to |order|
        invariant Valid()
        invariant Lines() == Deliver(was, Upto(mail, order[..i]))
      {
        DeliverNext(was, mail, order, i);
        SendCopy(order[i], d, sender, filtered, comments);
      }
      assert order[..|order|] == order;
      UptoAll(was, mail, order);
    }

    /** The confirmation for the sender, if the diff has a request id, and then the copies. */
    method ConfirmAndRelay(id: nat, d: Diff, filtered: bool, comments: CommentMap)
      requires Valid() && id in links
      modifies links.Values
      ensures Valid()
      ensures Lines() == Deliver(Deliver(old(Lines()), Confirmation(id, d)), Copies(d, roles, id, filtered, comments))
    {
      hide Deliver, Copies;
      if d.rid.Some? {
        SendTo(id, ConfirmDiff(d.rid.value));
      } else {
        LinesAreSized();
        DeliverNothing(Lines(), Confirmation(id, d));
      }
      SendUpdates(d, id, filtered, comments);
    }

    /** `request_snapshot`: only one writer is asked. */
    method RequestSnapshot(v: int)
      requires Valid()
      modifies links.Values
      ensures Valid() && Lines() == Deliver(old(Lines()), Asked(FirstWriter(order, roles), v))
    {
      hide Deliver;
      LinesAreSized();
      assert order[..|order|] == order;
      for i := 0 to |order|
        invariant Valid() && Lines() == old(Lines())
        invariant forall j :: 0 <= j < i ==> roles[order[j]].rights != Write
      {
        FirstWriterAt(order, roles, i);
        if roles[order[i]].rights == Write {
          SendTo(order[i], Documents.RequestSnapshot(v));
          return;
        }
      }
      FirstWriterAt(order, roles, |order|);
      DeliverNothing(Lines(), Asked(None, v));
    }

    /** The sends for an accepted readable diff. */
    method SendReadable(id: nat, d: Diff, comments: CommentMap)
      requires Valid() && id in links && d.rid.Some?
      modifies links.Values
      ensures Valid() && Lines() == Deliver(old(Lines()), ReadableMail(roles, id, d, comments))
    {
      hide Deliver, ReadableMail, Copies, Confirmation;
      PlainMail(Lines(), roles, id, d, comments);
      ConfirmAndRelay(id, d, true, comments);
    }

    /** The three sends for an accepted encrypted diff. */
    method SendCiphertext(id: nat, d: Diff, due: bool, version: int)
      requires Valid() && id in links
      modifies links.Values
      ensures Valid()
      ensures var asked := if due then FirstWriter(order, roles) else None;
        Lines() == Deliver(Deliver(Deliver(old(Lines()), Asked(asked, version)), Confirmation(id, d)),
                           Copies(d, roles, id, false, map[]))
    {
      hide Deliver, Copies, FirstWriter, Confirmation;
      if due {
        RequestSnapshot(version);
      } else {
        LinesAreSized();
        DeliverNothing(Lines(), Asked(None, version));
      }
      ConfirmAndRelay(id, d, false, map[]);
    }

    method NotifyOne(k: nat, msg: Msg, sender: nat)
      requires Valid() && k in links
      modifies links[k]
      ensures Valid() && Lines() == Deliver(old(Lines()), map[k := For(ToRest(roles, msg, sender), k)])
    {
      hide Deliver;
      if k != sender {
        SendTo(k, msg);
      } else {
        LinesAreSized();
        DeliverNothing(Lines(), map[k := []]);
      }
    }

    /** A notice for everyone but its sender. */
    method NotifyOthers(msg: Msg, sender: nat)
      requires Valid()
      modifies links.Values
      ensures Valid() && Lines() == Deliver(old(Lines()), ToRest(roles, msg, sender))
    {
      hide Deliver, Upto, For, ToRest;
      ghost var was := Lines();
      ghost var mail := ToRest(roles, msg, sender);
      LinesAreSized();
      UptoNone(was, mail);
      for i := 0 to |order|
        invariant Valid()
        invariant Lines() == Deliver(was, Upto(mail, order[..i]))
      {
        DeliverNext(was, mail, order, i);
        NotifyOne(order[i], msg, sender);
      }
      assert order[..|order|] == order;
      UptoAll(was, mail, order);
    }

    method SendConnections(k: nat)
      requires Valid() && k in links
      modifies links[k]
      ensures Valid() && Lines() == Deliver(old(Lines()), map[k := For(ParticipantList(roles), k)])
    {
      hide Deliver;
      if roles[k].rights in CAN_COMMUNICATE {
        SendTo(k, Connections);
      } else {
        LinesAreSized();
        DeliverNothing(Lines(), map[k := []]);
      }
    }

    method SendParticipantList()
      requires Valid()
      modifies links.Values
      ensures Valid() && Lines() == Deliver(old(Lines()), ParticipantList(roles))
    {
      hide Deliver, Upto, For, ParticipantList;
      ghost var was := Lines();
      ghost var mail := ParticipantList(roles);
      LinesAreSized();
      UptoNone(was, mail);
      for i := 0 to |order|
        invariant Valid()
        invariant Lines() == Deliver(was, Upto(mail, order[..i]))
      {
        DeliverNext(was, mail, order, i);
        SendConnections(order[i]);
      }
      assert order[..|order|] == order;
      UptoAll(was, mail, order);
    }
  }

  class DocumentSession<N> {
    var doc: Doc<N>
    var node: Option<N>
    var nodeUpdates: bool
    var lastSaved: int
    var row: Doc<N>
    var images: ImageRows
    const room: Participants

    function State(): Core<N>
      reads this
    {
      Core(doc, node, nodeUpdates, lastSaved, row, images)
    }

    /** The handler has left the state and sent the mail of `e`; `was` are the wires before it. */
    ghost predicate Did(e: Effect<N>, was: map<nat, Line>)
      reads this, room, room.links.Values
    {
      room.Valid() && State() == e.core && room.Lines() == Deliver(was, e.mail)
    }

    /** A document nobody is working on. */
    constructor (stored: Doc<N>, passedOn: ImageRows)
      ensures room.Valid() && fresh(room) && room.order == [] && State() == Open(stored, passedOn)
    {
      doc, row, images := stored, stored, passedOn;
      node := if stored.e2ee || stored.content.Cipher? then None else Some(stored.content.value);
      nodeUpdates, lastSaved := false, stored.version;
      room := new Participants();
    }

    // ---- Saving

    /** The columns of `document_store.save_document`; says whether anything was written. */
    method WriteColumns(cfg: Config<N>, current: Option<N>, force: bool) returns (saved: bool)
      requires current == if !doc.e2ee && nodeUpdates then node else None
      modifies this`doc, this`row
      ensures saved == !SaveIsSkipped(old(State()), force)
      ensures State() == if saved then SaveWrite(cfg, old(State())) else old(State())
    {
      if !force && doc.version == lastSaved {
        return false;
      }
      if current.Some? && !doc.e2ee {
        if cfg.rust {
          row := WriteRow(row, doc, Plain(current.value));
        } else {
          doc := doc.(content := Plain(current.value));
          row := WriteRow(row, doc, doc.content);
        }
      } else if cfg.rust && !doc.e2ee {
        row := WriteRow(row, doc, row.content);
      } else {
        row := WriteRow(row, doc, doc.content);
      }
      return true;
    }

    method SaveDocument(cfg: Config<N>, force: bool)
      modifies this
      ensures State() == Save(cfg, old(State()), force)
    {
      hide SaveWrite;
      var current := if !doc.e2ee && nodeUpdates then node else None;
      var saved := WriteColumns(cfg, current, force);
      SaveWriteKeepsFlags(cfg, old(State()));
      if saved {
        lastSaved := doc.version;
        if !doc.e2ee {
          nodeUpdates := false;
        }
      }
    }

    method Unfixable(cfg: Config<N>, id: nat)
      requires room.Valid() && id in room.links
      modifies this, room.links[id]
      ensures room.Valid()
      ensures State() == Save(cfg, old(State()), false)
      ensures room.Lines() == Deliver(old(room.Lines()), map[id := [Refetch]])
    {
      hide Deliver, Save;
      SaveDocument(cfg, false);
      room.SendTo(id, Refetch);
    }

    method SendMissing(id: nat, behind: nat)
      requires room.Valid() && id in room.links && 0 < behind <= |doc.diffs|
      modifies room.links[id]
      ensures room.Valid()
      ensures room.Lines() == Deliver(old(room.Lines()),
                                 map[id := Missing(doc.diffs, behind, room.roles[id], PlainComments(doc.comments))])
    {
      hide Deliver, Sanitize;
      ghost var was := room.Lines();
      ghost var missing := Missing(doc.diffs, behind, room.roles[id], PlainComments(doc.comments));
      var tail := Last(doc.diffs, behind);
      room.LinesAreSized();
      DeliverNothing(was, map[id := missing[..0]]);
      for i := 0 to |tail|
        invariant room.Valid()
        invariant room.Lines() == Deliver(was, map[id := missing[..i]])
      {
        room.SendTo(id, DiffMsg(Sanitize(tail[i].(serverFix := true), room.roles[id], PlainComments(doc.comments))));
        AfterThat(was, id, missing[..i], missing[i]);
        assert missing[..i] + [missing[i]] == missing[..i + 1];
      }
      assert missing[..|tail|] == missing;
    }

    method ResetOne(cfg: Config<N>, k: nat, error: Msg, sender: nat)
      requires room.Valid() && k in room.links && lastSaved == doc.version
      modifies this, room.links[k]
      ensures room.Valid() && State() == old(State())
      ensures room.Lines() == Deliver(old(room.Lines()), map[k := For(ErrorNotices(room.roles, error, sender), k)])
    {
      hide Deliver;
      ghost var here := room.Lines();
      if k != sender {
        Unfixable(cfg, k);
        room.SendTo(k, error);
        AfterThat(here, k, [Refetch], error);
        assert [Refetch] + [error] == [Refetch, error];
      } else {
        room.LinesAreSized();
        DeliverNothing(here, map[k := []]);
      }
    }

    /** `reset_collaboration`: everyone but the sender is told to refetch, and gets the error. */
    method ResetCollaboration(cfg: Config<N>, error: Msg, sender: nat)
      requires room.Valid() && lastSaved == doc.version
      modifies this, room.links.Values
      ensures room.Valid() && State() == old(State())
      ensures room.Lines() == Deliver(old(room.Lines()), ErrorNotices(room.roles, error, sender))
    {
      hide Deliver, Upto, For, ErrorNotices;
      ghost var was, core := room.Lines(), State();
      ghost var mail := ErrorNotices(room.roles, error, sender);
      room.LinesAreSized();
      UptoNone(was, mail);
      for i := 0 to |room.order|
        invariant room.Valid() && State() == core
        invariant room.Lines() == Deliver(was, Upto(mail, room.order[..i]))
      {
        DeliverNext(was, mail, room.order, i);
        ResetOne(cfg, room.order[i], error, sender);
      }
      assert room.order[..|room.order|] == room.order;
      UptoAll(was, mail, room.order);
    }

    method CatchUp(id: nat, behind: nat)
      requires room.Valid() && id in room.links && 0 < behind <= |doc.diffs|
      modifies room.links[id]
      ensures room.Valid()
      ensures room.Lines() == Deliver(old(room.Lines()), map[id :=
        Missing(doc.diffs, behind, room.roles[id], PlainComments(doc.comments)) + [ConfirmVersion(doc.version)]])
    {
      hide Deliver, Missing;
      ghost var was := room.Lines();
      ghost var missing := Missing(doc.diffs, behind, room.roles[id], PlainComments(doc.comments));
      SendMissing(id, behind);
      room.SendTo(id, ConfirmVersion(doc.version));
      AfterThat(was, id, missing, ConfirmVersion(doc.version));
    }

    method ReconcileVersion(cfg: Config<N>, id: nat, v: Option<int>, offline: bool) returns (ok: bool)
      requires room.Valid() && id in room.links
      modifies this, room.links[id]
      ensures var e := CheckVersion(cfg, old(State()), room.roles, id, v, offline);
        Did(e, old(room.Lines())) && ok == e.ok
    {
      hide Deliver, Missing, Save, ToOne, Nothing;
      room.LinesAreSized();
      if v.None? {
        DeliverToNone(room.Lines(), room.roles);
        return false;
      }
      var dv := doc.version;
      if v.value == dv {
        DeliverToOne(room.Lines(), room.roles, id, [ConfirmVersion(dv)]);
        room.SendTo(id, ConfirmVersion(dv));
      } else if v.value < dv && !offline && v.value + |doc.diffs| >= dv {
        DeliverToOne(room.Lines(), room.roles, id,
                     Missing(doc.diffs, dv - v.value, room.roles[id], PlainComments(doc.comments))
                     + [ConfirmVersion(dv)]);
        CatchUp(id, dv - v.value);
      } else {
        DeliverToOne(room.Lines(), room.roles, id, [Refetch]);
        Unfixable(cfg, id);
      }
      return true;
    }

    // ---- Diffs

    /** `reject_message` for a diff. */
    method RejectMessage(id: nat, d: Diff) returns (ok: bool)
      requires room.Valid() && id in room.links
      modifies room.links[id]
      ensures var e := Reject(State(), room.roles, id, d);
        Did(e, old(room.Lines())) && ok == e.ok
    {
      hide Deliver, ToOne, Nothing;
      if d.rid.None? {
        room.LinesAreSized();
        DeliverToNone(room.Lines(), room.roles);
        return false;
      }
      DeliverToOne(room.Lines(), room.roles, id, [RejectDiff(d.rid.value)]);
      room.SendTo(id, RejectDiff(d.rid.value));
      return true;
    }

    method Append(d: Diff)
      modifies this`doc
      ensures State() == Log(old(State()), d)
    {
      doc := doc.(diffs := doc.diffs + [d]);
      doc := doc.(diffs := Last(doc.diffs, HISTORY_LENGTH));
      doc := doc.(version := doc.version + 1);
    }

    method RelayCiphertext(cfg: Config<N>, id: nat, d: Diff)
      requires room.Valid() && id in room.links && cfg.saveInterval > 0 && doc.e2ee
      requires d.salt.Some? && doc.salt == d.salt && d.ep.Some?
      modifies this`doc, room.links.Values
      ensures room.Valid()
      ensures State() == Log(old(State()), d)
      ensures room.Lines() == Deliver(old(room.Lines()),
                                      AcceptEncrypted(cfg, old(State()), room.order, room.roles, id, d).mail)
    {
      hide Deliver, Log, AcceptEncrypted, Copies, FirstWriter, Asked, Confirmation;
      EncryptedMail(cfg, State(), room.order, room.roles, id, d, room.Lines());
      Append(d);
      room.SendCiphertext(id, d, doc.version % cfg.saveInterval == 0, doc.version);
    }

    method AcceptCiphertext(cfg: Config<N>, id: nat, d: Diff) returns (ok: bool)
      requires room.Valid() && id in room.links && cfg.saveInterval > 0 && doc.e2ee
      modifies this`doc, room.links.Values
      ensures var e := AcceptEncrypted(cfg, old(State()), room.order, room.roles, id, d);
        Did(e, old(room.Lines())) && ok == e.ok
    {
      hide Deliver, Log, Copies, FirstWriter, Nothing, ToOne;
      if d.salt.None? {
        ok := RejectMessage(id, d);
        return;
      }
      if doc.salt.None? {
        room.LinesAreSized();
        DeliverToNone(room.Lines(), room.roles);
        return false;
      }
      if d.salt != doc.salt || d.ep.None? {
        ok := RejectMessage(id, d);
        return;
      }
      RelayCiphertext(cfg, id, d);
      return true;
    }

    method ApplyCommentUpdates(d: Diff) returns (ok: bool)
      modifies this`doc
      ensures (State(), ok) == ApplyComments(old(State()), d)
    {
      hide PyFold;
      if d.cu.None? {
        return true;
      }
      if doc.comments.Cipher? {
        return false;
      }
      var comments;
      comments, ok := UpdateComments(doc.comments.value, d.cu.value);
      doc := doc.(comments := Plain(comments));
    }

    method ApplyBibliographyUpdates(d: Diff) returns (ok: bool)
      modifies this`doc
      ensures (State(), ok) == ApplyBibliography(old(State()), d)
    {
      hide UpdateBibliography;
      if d.bu.None? {
        return true;
      }
      if doc.bibliography.Cipher? {
        return false;
      }
      var bibliography;
      bibliography, ok := UpdateEntries(doc.bibliography.value, d.bu.value);
      doc := doc.(bibliography := Plain(bibliography));
    }

    /** Title, comments, bibliography and images of an accepted diff; false when an update raises. */
    method ApplyUpdates(d: Diff, role: Role) returns (ok: bool)
      modifies this`doc, this`row, this`images
      ensures (State(), ok) == ApplySidecars(old(State()), d, role)
    {
      hide ApplyComments, ApplyBibliography, UpdateImages, Last;
      if d.ti.Some? {
        doc := doc.(title := Last(d.ti.value, 255));
        row := row.(title := doc.title);
      }
      ok := ApplyCommentUpdates(d);
      if ok {
        ok := ApplyBibliographyUpdates(d);
        if ok && d.iu.Some? {
          images, ok := UpdateRows(images, d.iu.value, role);
        }
      }
    }

    method TakeSteps(cfg: Config<N>, d: Diff) returns (ok: bool)
      modifies this`node, this`nodeUpdates
      ensures ok == StepsOf(cfg, old(State()), d).Some?
      ensures State() == if ok then StepsOf(cfg, old(State()), d).value else old(State())
    {
      if d.ds.None? {
        return true;
      }
      if node.None? {
        return false;
      }
      var updated := Apply(cfg, d.ds.value, node.value);
      if updated.None? {
        return false;
      }
      node, nodeUpdates := updated, true;
      return true;
    }

    method ReportPatchError(cfg: Config<N>, id: nat)
      requires room.Valid() && id in room.links
      modifies this, room.links.Values
      ensures Did(PatchFails(cfg, old(State()), room.roles, id), old(room.Lines()))
    {
      hide Deliver, ErrorNotices, ToAll, Save;
      ghost var was, core := room.Lines(), State();
      var error := PatchError(room.roles[id].user);
      Unfixable(cfg, id);
      room.SendTo(id, error);
      SaveIsUpToDate(cfg, core);
      ResetCollaboration(cfg, error, id);
      ErrorMail(was, room.roles, id, error);
    }

    /** Log, sidecar updates, periodic save. */
    method RecordDiff(cfg: Config<N>, d: Diff, role: Role) returns (ok: bool)
      requires cfg.saveInterval > 0
      modifies this
      ensures (State(), ok) == Recorded(cfg, old(State()), d, role)
    {
      hide Log, Save, ApplySidecars;
      Append(d);
      ok := ApplyUpdates(d, role);
      if ok && doc.version % cfg.saveInterval == 0 {
        SaveDocument(cfg, false);
      }
    }

    method RelayReadable(cfg: Config<N>, id: nat, d: Diff) returns (ok: bool)
      requires room.Valid() && id in room.links && cfg.saveInterval > 0
      modifies this, room.links.Values
      ensures var e := Relayed(cfg, old(State()), room.roles, id, d);
        Did(e, old(room.Lines())) && ok == e.ok
    {
      hide Deliver, Recorded, Nothing, ReadableMail;
      ghost var was := room.Lines();
      ok := RecordDiff(cfg, d, room.roles[id]);
      assert room.Valid() && room.Lines() == was;
      if !ok || d.rid.None? {
        room.LinesAreSized();
        DeliverToNone(room.Lines(), room.roles);
        return false;
      }
      room.SendReadable(id, d, PlainComments(doc.comments));
    }

    method AcceptReadable(cfg: Config<N>, id: nat, d: Diff) returns (ok: bool)
      requires room.Valid() && id in room.links && cfg.saveInterval > 0 && !doc.e2ee
      modifies this, room.links.Values
      ensures var e := AcceptPlain(cfg, old(State()), room.roles, id, d);
        Did(e, old(room.Lines())) && ok == e.ok
    {
      hide State, Did, StepsOf, Relayed;
      var fine := TakeSteps(cfg, d);
      if fine {
        ok := RelayReadable(cfg, id, d);
      } else {
        hide PatchFails;
        PatchFailsIsFine(cfg, State(), room.roles, id);
        ReportPatchError(cfg, id);
        ok := true;
      }
    }

    method HandleDiffMessage(cfg: Config<N>, id: nat, d: Diff) returns (ok: bool)
      requires room.Valid() && id in room.links && cfg.saveInterval > 0
      modifies this, room.links.Values
      ensures var e := HandleDiff(cfg, old(State()), room.order, room.roles, id, d);
        Did(e, old(room.Lines())) && ok == e.ok
    {
      hide Deliver, Discarded, AcceptEncrypted, AcceptPlain, Missing, Save, ToOne, Nothing;
      var pv, dv := d.v, doc.version;
      if Discarded(cfg, State(), room.roles[id], d) {
        room.LinesAreSized();
        DeliverToNone(room.Lines(), room.roles);
        return true;
      }
      if pv == dv {
        if doc.e2ee {
          ok := AcceptCiphertext(cfg, id, d);
        } else {
          ok := AcceptReadable(cfg, id, d);
        }
        return;
      }
      if pv < dv && pv + |doc.diffs| >= dv {
        DeliverToOne(room.Lines(), room.roles, id,
                     Missing(doc.diffs, dv - pv, room.roles[id], PlainComments(doc.comments)));
        SendMissing(id, dv - pv);
      } else {
        DeliverToOne(room.Lines(), room.roles, id, [Refetch]);
        Unfixable(cfg, id);
      }
      return true;
    }

    // ---- One frame

    method DispatchFrame(cfg: Config<N>, id: nat, verdict: Verdict<Up>) returns (ok: bool)
      requires room.Valid() && id in room.links && cfg.saveInterval > 0
      modifies this, room.links.Values
      ensures var e := Dispatch(cfg, old(State()), room.order, room.roles, id, verdict);
        Did(e, old(room.Lines())) && ok == e.ok
    {
      hide Deliver, HandleDiff, CheckVersion, Reject, Nothing;
      room.LinesAreSized();
      DeliverToNone(room.Lines(), room.roles);
      match verdict
      case Handled(_, UpDiff(d)) =>
        if room.roles[id].rights !in CAN_UPDATE_DOCUMENT {
          return true;
        }
        ok := HandleDiffMessage(cfg, id, d);
      case Handled(_, UpCheck(v, offline)) =>
        ok := ReconcileVersion(cfg, id, v, offline);
      case Rejected(_, UpDiff(d)) =>
        ok := RejectMessage(id, d);
      case _ =>
        return true;
    }

    /** `receive`: the connection judges the frame, then the session handles or rejects it. */
    method ReceiveText(cfg: Config<N>, id: nat, msg: Incoming<Up>) returns (ok: bool)
      requires room.Valid() && id in room.links && cfg.saveInterval > 0
      modifies this, room.links.Values
      ensures var line := old(room.Lines())[id];
        var lines := old(room.Lines())[id := Heard(line, msg)];
        var e := Dispatch(cfg, Resaved(cfg, old(State()), line.conn, msg), room.order, room.roles, id,
                          Judge(line.conn, msg));
        Did(e, lines) && ok == e.ok
    {
      hide Deliver, Judge, Heard, Dispatch, Resaved;
      SaveBeforeRefetch(cfg, id, msg);
      var verdict := room.Hear(id, msg);
      ok := DispatchFrame(cfg, id, verdict);
    }

    method SaveBeforeRefetch(cfg: Config<N>, id: nat, msg: Incoming<Up>)
      requires room.Valid() && id in room.links
      modifies this
      ensures State() == Resaved(cfg, old(State()), room.Lines()[id].conn, msg)
    {
      hide Save, Overflows;
      var link := room.links[id];
      var refetch := link.Refetches(msg);
      if refetch {
        SaveDocument(cfg, false);
      }
    }

    // ---- Joining and leaving

    /** `subscribe` of a consumer whose connection is already open. */
    method Subscribe(cfg: Config<N>, role: Role, link: Connection<Msg>, connection: int, v: Option<int>)
      returns (id: nat, ok: bool)
      requires room.Valid() && link.Valid() && link !in room.links.Values
      modifies this, room, room.links.Values, link
      ensures room.Valid()
      ensures id == NewId(old(room.order))
      ensures room.order == old(room.order) + [id] && room.roles == old(room.roles)[id := role]
      ensures room.links == old(room.links)[id := link]
      ensures var core := if old(room.order) == [] then Open(old(row), old(images)) else old(State());
        var e := Greet(cfg, core, room.roles, id, connection, v);
        && State() == e.core && ok == e.ok
        && room.Lines() == Deliver(old(room.Lines())[id := Line(old(link.State()), old(link.sent))], e.mail)
    {
      hide State, Deliver, Greet, Wired, Participants.Lines;
      OpenIfEmpty();
      id := room.Add(role, link);
      ok := Welcome(cfg, id, connection, v);
    }

    /** Without participants the session is made anew from the row. */
    method OpenIfEmpty()
      modifies this
      ensures State() == if room.order == [] then Open(old(row), old(images)) else old(State())
    {
      if room.order == [] {
        doc, nodeUpdates, lastSaved := row, false, row.version;
        node := if row.e2ee || row.content.Cipher? then None else Some(row.content.value);
      }
    }

    method Welcome(cfg: Config<N>, id: nat, connection: int, v: Option<int>) returns (ok: bool)
      requires room.Valid() && id in room.links
      modifies this, room.links.Values
      ensures var e := Greet(cfg, old(State()), room.roles, id, connection, v);
        Did(e, old(room.Lines())) && ok == e.ok
    {
      hide Deliver, CheckVersion, ParticipantList, Greet;
      GreetCore(cfg, State(), room.roles, id, connection, v);
      GreetMail(cfg, State(), room.roles, id, connection, v, room.Lines());
      var rights := room.roles[id].rights;
      room.SendTo(id, Subscribed);
      ok := true;
      if connection < 1 {
        room.SendTo(id, SessionInfo(id, rights));
        ok := ReconcileVersion(cfg, id, v, false);
      } else {
        room.SendTo(id, AccessRight(rights));
        room.SendNothing();
      }
      if ok && rights in CAN_COMMUNICATE {
        room.SendParticipantList();
      } else {
        room.SendNothing();
      }
    }

    /** `disconnect`: the last one out saves, otherwise the others hear who is left. */
    method Disconnect(cfg: Config<N>, id: nat)
      requires room.Valid() && id in room.links
      modifies this, room, room.links.Values
      ensures room.Valid()
      ensures room.order == Drop(old(room.order), id) && room.roles == old(room.roles) - {id}
      ensures State() == if room.roles == map[] then Save(cfg, old(State()), false) else old(State())
      ensures room.Lines() == Deliver(old(room.Lines()) - {id}, ParticipantList(room.roles))
    {
      hide Deliver, Save, ParticipantList;
      room.Remove(id);
      if room.roles == map[] {
        SaveDocument(cfg, false);
        DeliverNothing(room.Lines(), ParticipantList(room.roles));
      } else {
        room.SendParticipantList();
      }
    }
  }
}
