/** Who may do what: resolving rights when a connection is made, and reading them again while it is open. */
module Authorization {
  import opened Prelude
  import opened Access

  datatype Token = Token(document: nat, rights: Rights, active: bool, expires: Option<int>)

  /** Owners by document, direct rights by document and user, share tokens. */
  datatype Database = Database(owners: map<nat, nat>, grants: map<(nat, nat), Rights>, tokens: map<string, Token>)

  /** Foreign keys hold. */
  ghost predicate Referential(db: Database) {
    && (forall g :: g in db.grants ==> g.0 in db.owners)
    && (forall t :: t in db.tokens ==> db.tokens[t].document in db.owners)
  }

  /** The user a connection acts for: `login` is the logged-in user, `token` the share token in the address. */
  datatype Visitor = Visitor(login: Option<nat>, token: Option<string>)

  /** What the consumer keeps of the user: a guest or token user carries the token. */
  datatype User = Anonymous | Plain(id: nat) | Guest(token: string, tokenRights: Rights)
                | TokenUser(id: nat, token: string, tokenRights: Rights)

  /** The part of `SessionUserInfo` that decides access. */
  datatype Info = Info(rights: Rights, isOwner: bool)

  // ---- Ranks

  /** The position in the order of rights. */
  function Rank(r: Rights): (n: nat)
    ensures n < |RIGHTS_ORDER| && RIGHTS_ORDER[n] == r
  {
    match r
    case Write => 0
    case WriteTracked => 1
    case CommentRight => 2
    case ReviewTracked => 3
    case Review => 4
    case Read => 5
    case ReadWithoutComments => 6
  }

  function Better(a: Rights, b: Rights): Rights {
    if Rank(a) <= Rank(b) then a else b
  }

  function BetterOf(a: Option<Rights>, b: Option<Rights>): Option<Rights> {
    if a.None? then b else if b.None? then a else Some(Better(a.value, b.value))
  }

  // ---- Resolving

  /** `get_token_access`, for one document. */
  function TokenAccess(db: Database, token: string, document: nat, now: int): Option<Rights> {
    if token !in db.tokens || !db.tokens[token].active then None
    else
      var t := db.tokens[token];
      if (t.expires.Some? && t.expires.value < now) || t.document != document then None else Some(t.rights)
  }

  function Grant(db: Database, document: nat, user: nat): Option<Rights> {
    if (document, user) in db.grants then Some(db.grants[(document, user)]) else None
  }

  predicate Owns(db: Database, document: nat, user: nat) {
    document in db.owners && db.owners[document] == user
  }

  /** `init`: `None` closes the connection. */
  function Identify(db: Database, v: Visitor, document: nat, now: int): Option<User> {
    match (v.login, v.token)
    case (None, None) => Some(Anonymous)
    case (Some(id), None) => Some(Plain(id))
    case (None, Some(token)) =>
      (match TokenAccess(db, token, document, now) case None => None case Some(r) => Some(Guest(token, r)))
    case (Some(id), Some(token)) =>
      (match TokenAccess(db, token, document, now)
       case None => Some(Plain(id))
       case Some(r) => Some(TokenUser(id, token, r)))
  }

  /** `init_access`. */
  function InitAccess(db: Database, user: User, document: nat): Option<Info> {
    if document !in db.owners then None
    else match user
      case Anonymous => None
      case Guest(_, r) => Some(Info(r, false))
      case TokenUser(id, _, r) =>
        if db.owners[document] == id then Some(Info(Write, true))
        else if Grant(db, document, id).Some? then Some(Info(Better(r, Grant(db, document, id).value), false))
        else Some(Info(r, false))
      case Plain(id) =>
        if db.owners[document] == id then Some(Info(Write, true))
        else if Grant(db, document, id).Some? then Some(Info(Grant(db, document, id).value, false))
        else None
  }

  /** A connection made now. */
  function Connect(db: Database, v: Visitor, document: nat, now: int): Option<Info> {
    match Identify(db, v, document, now)
    case None => None
    case Some(user) => InitAccess(db, user, document)
  }

  /** What reading the rights again comes to. */
  datatype Refreshed = Allowed(info: Info) | Refused | Raises

  /** The lookup of the direct right is handed the token user's wrapper, which is no database user. */
  predicate LooksUpWrapper(user: User, info: Info) {
    user.TokenUser? && !info.isOwner
  }

  /** `refresh_authorization` with a forced read; the owner's rights stay as they are. */
  function Refresh(db: Database, user: User, document: nat, info: Info, now: int): Refreshed {
    match user
    case Anonymous => Refused
    case Guest(token, _) =>
      (match TokenAccess(db, token, document, now) case None => Refused case Some(r) => Allowed(info.(rights := r)))
    case Plain(id) =>
      if info.isOwner then Allowed(info)
      else if Grant(db, document, id).Some? then Allowed(info.(rights := Grant(db, document, id).value))
      else Refused
    case TokenUser(_, _, _) => if info.isOwner then Allowed(info) else Raises
  }

  // ---- Who gets in, told from the rows

  /** The token is there, active, for this document, and not past its time. */
  ghost predicate Opens(db: Database, token: string, document: nat, now: int, rights: Rights) {
    && token in db.tokens
    && var t := db.tokens[token];
       t.active && t.document == document && t.rights == rights && (t.expires.Some? ==> now <= t.expires.value)
  }

  lemma TokenOpensIff(db: Database, token: string, document: nat, now: int, rights: Rights)
    ensures TokenAccess(db, token, document, now) == Some(rights) <==> Opens(db, token, document, now, rights)
  {
  }

  /** Nobody gets in anonymously; a guest gets in with what an open token gives, and so is refreshed. */
  lemma GuestGetsInIff(db: Database, token: string, document: nat, now: int, rights: Rights, held: Info)
    requires document in db.owners
    ensures Connect(db, Visitor(None, None), document, now) == None
    ensures Connect(db, Visitor(None, Some(token)), document, now) == Some(Info(rights, false))
       <==> Opens(db, token, document, now, rights)
    ensures Refresh(db, Guest(token, held.rights), document, held, now) == Allowed(held.(rights := rights))
       <==> Opens(db, token, document, now, rights)
  {
    TokenOpensIff(db, token, document, now, rights);
  }

  /** A user without a token gets in as the owner with `write`, and otherwise with the right of their row; a row that is
      gone by the next reading closes the session. */
  lemma UserGetsIn(db: Database, user: nat, document: nat, now: int, held: Info)
    requires document in db.owners && !held.isOwner
    ensures var connected := Connect(db, Visitor(Some(user), None), document, now);
      if db.owners[document] == user then connected == Some(Info(Write, true))
      else if (document, user) in db.grants then connected == Some(Info(db.grants[(document, user)], false))
      else connected == None
    ensures Refresh(db, Plain(user), document, held, now)
         == if (document, user) in db.grants then Allowed(held.(rights := db.grants[(document, user)])) else Refused
  {
  }

  /** The order of rights, best first. */
  lemma RankingIs()
    ensures Rank(Write) < Rank(WriteTracked) < Rank(CommentRight) < Rank(ReviewTracked) < Rank(Review) < Rank(Read)
            < Rank(ReadWithoutComments)
  {
  }

  // ---- Reading again agrees with connecting again

  function VisitorOf(user: User): Visitor {
    match user
    case Anonymous => Visitor(None, None)
    case Plain(id) => Visitor(Some(id), None)
    case Guest(token, _) => Visitor(None, Some(token))
    case TokenUser(id, token, _) => Visitor(Some(id), Some(token))
  }

  predicate OwnerNow(db: Database, user: User, document: nat) {
    (user.Plain? || user.TokenUser?) && Owns(db, document, user.id)
  }

  /** What a user has apart from ownership. */
  function Granted(db: Database, user: User, document: nat, now: int): Option<Rights> {
    match user
    case Anonymous => None
    case Plain(id) => Grant(db, document, id)
    case Guest(token, _) => TokenAccess(db, token, document, now)
    case TokenUser(id, token, _) => BetterOf(TokenAccess(db, token, document, now), Grant(db, document, id))
  }

  function RightsOf(info: Option<Info>): Option<Rights> {
    if info.Some? then Some(info.value.rights) else None
  }

  /** Reading again came to what connecting gives: the same rights, or none on both sides. */
  predicate Agrees(reading: Refreshed, connected: Option<Info>) {
    match reading
    case Allowed(info) => RightsOf(connected) == Some(info.rights)
    case Refused => connected.None?
    case Raises => false
  }

  /** Both ways of resolving give the better of what is granted, and ownership counts as write. */
  lemma ConnectIsGranted(db: Database, user: User, document: nat, now: int)
    requires Referential(db)
    ensures RightsOf(Connect(db, VisitorOf(user), document, now))
         == if OwnerNow(db, user, document) then Some(Write) else Granted(db, user, document, now)
  {
    if user.Guest? || user.TokenUser? {
      var t := TokenAccess(db, user.token, document, now);
      assert t.Some? ==> document in db.owners;
    }
    if user.Plain? || user.TokenUser? {
      assert Grant(db, document, user.id).Some? ==> (document, user.id).0 in db.owners;
    }
  }

  lemma RefreshIsGranted(db: Database, user: User, document: nat, info: Info, now: int)
    requires info.isOwner ==> info.rights == Write && (user.Plain? || user.TokenUser?)
    ensures var held := if info.isOwner then Some(Write) else Granted(db, user, document, now);
      Refresh(db, user, document, info, now)
        == if LooksUpWrapper(user, info) then Raises
           else if held.Some? then Allowed(info.(rights := held.value)) else Refused
  {
  }

  /**
   Reading the rights again gives what connecting again would give, access and rights alike, exactly when the lookup is
   not handed a token user and the ownership flag from the time of connecting is still right, or the rights granted
   otherwise are `write` anyway.
   */
  lemma RefreshAgreesIff(db: Database, user: User, document: nat, info: Info, now: int)
    requires Referential(db)
    requires info.isOwner ==> info.rights == Write && (user.Plain? || user.TokenUser?)
    ensures Agrees(Refresh(db, user, document, info, now), Connect(db, VisitorOf(user), document, now))
       <==> && !LooksUpWrapper(user, info)
            && (info.isOwner == OwnerNow(db, user, document) || Granted(db, user, document, now) == Some(Write))
  {
    ConnectIsGranted(db, user, document, now);
    RefreshIsGranted(db, user, document, info, now);
    hide Refresh, Connect, Granted;
  }

  /** A logged-in user without a right of their own comes by an active link that grants `write`: connecting succeeds,
      and reading the rights again raises. */
  lemma LinkUserCannotBeReread(user: nat, owner: nat, document: nat, token: string, now: int)
    requires user != owner
    ensures var db := Database(map[document := owner], map[], map[token := Token(document, Write, true, None)]);
      && Identify(db, Visitor(Some(user), Some(token)), document, now) == Some(TokenUser(user, token, Write))
      && Connect(db, Visitor(Some(user), Some(token)), document, now) == Some(Info(Write, false))
      && Refresh(db, TokenUser(user, token, Write), document, Info(Write, false), now) == Raises
  {
  }

  /** A new session starts with the flag right. */
  lemma ConnectSetsTheFlag(db: Database, v: Visitor, document: nat, now: int)
    ensures var info := Connect(db, v, document, now);
      info.Some? ==>
        var user := Identify(db, v, document, now).value;
        && info.value.isOwner == OwnerNow(db, user, document)
        && (info.value.isOwner ==> info.value.rights == Write)
  {
  }

  /** Handing the document over leaves the previous owner's open session with `write`. */
  lemma FormerOwnerKeepsWriting(user: nat, heir: nat, document: nat, now: int)
    requires user != heir
    ensures var before := Database(map[document := user], map[], map[]);
      var after := Database(map[document := heir], map[], map[]);
      var info := Connect(before, Visitor(Some(user), None), document, now).value;
      && Refresh(after, Plain(user), document, info, now) == Allowed(Info(Write, true))
      && Connect(after, Visitor(Some(user), None), document, now) == None
  {
  }

  // ---- How old the rights can be

  /** A connection over time. `checkedAt` is when the rights in force were read, if that was after subscribing. */
  datatype Session = Session(user: User, info: Info, checkedAt: Option<int>, open: bool)

  datatype Event =
    | Frame(at: int)
    | Notified(at: int)

  predicate Fresh(interval: int, s: Session, now: int) {
    interval != 0 && s.checkedAt.Some? && now - s.checkedAt.value < interval
  }

  /** A guest's object remembers the rights as well. */
  function WithRights(user: User, rights: Rights): User {
    match user
    case Guest(token, _) => Guest(token, rights)
    case _ => user
  }

  function Reading(dbAt: int -> Database, document: nat, interval: int, s: Session, now: int, force: bool): Refreshed {
    if !force && Fresh(interval, s, now) then Allowed(s.info)
    else Refresh(dbAt(now), s.user, document, s.info, now)
  }

  /** Reads the rights unless they may still be used; an exception leaves everything as it was. */
  function Reread(dbAt: int -> Database, document: nat, interval: int, s: Session, now: int, force: bool): Session {
    if !force && Fresh(interval, s, now) then s
    else match Refresh(dbAt(now), s.user, document, s.info, now)
      case Refused => s.(open := false)
      case Raises => s
      case Allowed(info) =>
        s.(info := info, checkedAt := Some(now), user := WithRights(s.user, info.rights))
  }

  /** Whether a mutating frame that arrives now gets past the reading of the rights. */
  predicate Handled(dbAt: int -> Database, document: nat, interval: int, s: Session, now: int) {
    s.open && Reading(dbAt, document, interval, s, now, false).Allowed?
  }

  function Step(dbAt: int -> Database, document: nat, interval: int, s: Session, e: Event): Session {
    if !s.open then s
    else match e
      case Frame(now) => Reread(dbAt, document, interval, s, now, false)
      case Notified(now) => Reread(dbAt, document, interval, s, now, true)
  }

  function After(dbAt: int -> Database, document: nat, interval: int, s: Session, es: seq<Event>): Session
    decreases |es|
  {
    if es == [] then s else After(dbAt, document, interval, Step(dbAt, document, interval, s, es[0]), es[1..])
  }

  predicate InOrder(start: int, es: seq<Event>)
    decreases |es|
  {
    es != [] ==> start <= es[0].at && InOrder(es[0].at, es[1..])
  }

  /** What the database said at time `t`, with the flag from the time of connecting. */
  function Said(dbAt: int -> Database, document: nat, s: Session, t: int): Option<Rights> {
    if s.info.isOwner then Some(Write) else Granted(dbAt(t), s.user, document, t)
  }

  ghost predicate Current(dbAt: int -> Database, document: nat, s: Session, now: int) {
    && (s.info.isOwner ==> s.info.rights == Write && (s.user.Plain? || s.user.TokenUser?))
    && (s.checkedAt.Some? ==>
          s.checkedAt.value <= now && Some(s.info.rights) == Said(dbAt, document, s, s.checkedAt.value))
  }

  lemma GrantedIgnoresCache(db: Database, a: User, b: User, document: nat, now: int)
    requires a == b || (a.Guest? && b.Guest? && a.token == b.token)
    ensures Granted(db, a, document, now) == Granted(db, b, document, now)
  {
  }

  lemma StepKeepsCurrent(dbAt: int -> Database, document: nat, interval: int, s: Session, e: Event, now: int)
    requires Current(dbAt, document, s, now) && now <= e.at
    ensures var s' := Step(dbAt, document, interval, s, e);
      Current(dbAt, document, s', e.at) && s'.info.isOwner == s.info.isOwner
  {
    RefreshIsGranted(dbAt(e.at), s.user, document, s.info, e.at);
    var s' := Step(dbAt, document, interval, s, e);
    GrantedIgnoresCache(dbAt(e.at), s.user, s'.user, document, e.at);
    hide Granted;
  }

  function TimeAfter(now: int, es: seq<Event>): int {
    if es == [] then now else es[|es| - 1].at
  }

  lemma {:induction false} RunKeepsCurrent(dbAt: int -> Database, document: nat, interval: int, s: Session,
                                           es: seq<Event>, now: int, at: int)
    requires Current(dbAt, document, s, now) && InOrder(now, es + [Frame(at)])
    ensures TimeAfter(now, es) <= at
    ensures Current(dbAt, document, After(dbAt, document, interval, s, es), TimeAfter(now, es))
    decreases |es|
  {
    assert es != [] ==> (es + [Frame(at)])[1..] == es[1..] + [Frame(at)];
    if es == [] {
      assert (es + [Frame(at)])[0] == Frame(at);
    } else {
      hide Current, Step;
      StepKeepsCurrent(dbAt, document, interval, s, es[0], now);
      RunKeepsCurrent(dbAt, document, interval, Step(dbAt, document, interval, s, es[0]), es[1..], es[0].at, at);
    }
  }

  /**
   Bounded staleness: whatever the database does meanwhile, a mutating frame that is handled at all is handled with the
   rights the database gave at some time less than the interval ago, and at that very moment when the interval is not
   positive.
   */
  lemma RightsAreNeverStale(dbAt: int -> Database, document: nat, interval: int, s: Session, es: seq<Event>, now: int,
                            at: int)
    requires s.checkedAt.None? && (s.info.isOwner ==> s.info.rights == Write && (s.user.Plain? || s.user.TokenUser?))
    requires InOrder(now, es + [Frame(at)])
    ensures var before := After(dbAt, document, interval, s, es);
      var s' := Step(dbAt, document, interval, before, Frame(at));
      Handled(dbAt, document, interval, before, at) ==>
        && s'.checkedAt.Some?
        && var read := s'.checkedAt.value;
           && Some(s'.info.rights) == Said(dbAt, document, s', read)
           && (read == at || (read <= at && at - read < interval))
  {
    RunKeepsCurrent(dbAt, document, interval, s, es, now, at);
    var before := After(dbAt, document, interval, s, es);
    StepKeepsCurrent(dbAt, document, interval, before, Frame(at), TimeAfter(now, es));
    RefreshIsGranted(dbAt(at), before.user, document, before.info, at);
    hide Said, After, Refresh;
  }

  /** A session of a token user who did not own the document when connecting goes through every frame and notification
      unchanged, and no mutating frame of it is ever handled. */
  lemma {:induction false} LinkUserIsNeverHandled(dbAt: int -> Database, document: nat, interval: int, s: Session,
                                                  es: seq<Event>, at: int)
    requires s.open && s.checkedAt.None? && LooksUpWrapper(s.user, s.info)
    ensures After(dbAt, document, interval, s, es) == s
    ensures !Handled(dbAt, document, interval, After(dbAt, document, interval, s, es), at)
    decreases |es|
  {
    if es != [] {
      assert Step(dbAt, document, interval, s, es[0]) == s;
      LinkUserIsNeverHandled(dbAt, document, interval, s, es[1..], at);
    }
  }

  /** Within the interval the rights are not read again, unless by a notification. */
  lemma FreshRightsAreKept(dbAt: int -> Database, document: nat, interval: int, s: Session, now: int)
    requires interval > 0 && s.checkedAt.Some? && now - s.checkedAt.value < interval
    ensures Step(dbAt, document, interval, s, Frame(now)) == s
  {
  }

  predicate SameIdentity(a: Session, b: Session) {
    VisitorOf(a.user) == VisitorOf(b.user) && a.info.isOwner == b.info.isOwner
  }

  lemma {:induction false} RunKeepsIdentity(dbAt: int -> Database, document: nat, interval: int, s: Session,
                                            es: seq<Event>)
    ensures SameIdentity(s, After(dbAt, document, interval, s, es))
    decreases |es|
  {
    if es != [] {
      var next := Step(dbAt, document, interval, s, es[0]);
      assert SameIdentity(s, next);
      RunKeepsIdentity(dbAt, document, interval, next, es[1..]);
      hide Step;
    }
  }

  lemma OwnerAndGrantsIgnoreCache(db: Database, a: User, b: User, document: nat, now: int)
    requires VisitorOf(a) == VisitorOf(b)
    ensures OwnerNow(db, a, document) == OwnerNow(db, b, document)
    ensures Granted(db, a, document, now) == Granted(db, b, document, now)
  {
  }

  /**
   Over a whole session: a connection made at `start`, any frames and notifications since, and a notification at `at`.
   It leaves the session with what connecting again at `at` would give exactly when the lookup is not handed a token
   user, and the user owns the document at `at` if and only if they did at `start`, or is granted `write` anyway.
   */
  lemma SessionAgreesIff(dbAt: int -> Database, document: nat, interval: int, v: Visitor, start: int, es: seq<Event>,
                         at: int)
    requires Referential(dbAt(at)) && InOrder(start, es + [Frame(at)])
    requires Connect(dbAt(start), v, document, start).Some?
    ensures var user := Identify(dbAt(start), v, document, start).value;
      var session := Session(user, Connect(dbAt(start), v, document, start).value, None, true);
      var before := After(dbAt, document, interval, session, es);
      var after := Step(dbAt, document, interval, before, Notified(at));
      var reading := Reading(dbAt, document, interval, before, at, true);
      before.open ==>
        && after.open == !reading.Refused?
        && (reading.Allowed? ==> after.info == reading.info)
        && (reading.Raises? ==> after == before)
        && (Agrees(reading, Connect(dbAt(at), VisitorOf(user), document, at))
            <==> && (user.TokenUser? ==> OwnerNow(dbAt(start), user, document))
                 && (OwnerNow(dbAt(start), user, document) == OwnerNow(dbAt(at), user, document)
                     || Granted(dbAt(at), user, document, at) == Some(Write)))
  {
    ConnectSetsTheFlag(dbAt(start), v, document, start);
    var user := Identify(dbAt(start), v, document, start).value;
    var session := Session(user, Connect(dbAt(start), v, document, start).value, None, true);
    var before := After(dbAt, document, interval, session, es);
    hide Connect, Identify, Refresh, Granted, OwnerNow, VisitorOf, Agrees;
    assert Current(dbAt, document, session, start) by {
      OwnerIsKnown(dbAt(start), user, document);
    }
    RunKeepsCurrent(dbAt, document, interval, session, es, start, at);
    RunKeepsIdentity(dbAt, document, interval, session, es);
    OwnerAndGrantsIgnoreCache(dbAt(at), user, before.user, document, at);
    if before.open {
      RefreshAgreesIff(dbAt(at), before.user, document, before.info, at);
    }
    hide After, InOrder;
  }

  lemma OwnerIsKnown(db: Database, user: User, document: nat)
    ensures OwnerNow(db, user, document) ==> user.Plain? || user.TokenUser?
  {
  }

  // ---- The object

  class Consumer {
    const document: nat
    const interval: int
    var user: User
    var rights: Rights
    var isOwner: bool
    var checkedAt: Option<int>

    constructor (d: nat, i: int, u: User)
      ensures document == d && interval == i && user == u && checkedAt == None
    {
      document, interval, user := d, i, u;
      rights, isOwner, checkedAt := Read, false, None;
    }

    ghost function State(): Session
      reads this
    {
      Session(user, Info(rights, isOwner), checkedAt, true)
    }

    /** `init_access`, branch by branch. */
    method InitializeAccess(db: Database) returns (canAccess: bool)
      modifies this`rights, this`isOwner
      ensures canAccess == InitAccess(db, user, document).Some?
      ensures canAccess ==> Info(rights, isOwner) == InitAccess(db, user, document).value
    {
      if user.Anonymous? || document !in db.owners {
        return false;
      }
      isOwner := false;
      match user
      case Guest(_, tokenRights) =>
        rights := tokenRights;
        return true;
      case TokenUser(id, _, tokenRights) =>
        rights := tokenRights;
        if db.owners[document] == id {
          rights, isOwner := Write, true;
        } else if (document, id) in db.grants {
          rights := Better(tokenRights, db.grants[(document, id)]);
        }
        return true;
      case Plain(id) =>
        if db.owners[document] == id {
          rights, isOwner := Write, true;
          return true;
        }
        if (document, id) in db.grants {
          rights := db.grants[(document, id)];
          return true;
        }
        return false;
    }

    /** `refresh_authorization`: true, false, or an exception. */
    method RefreshAuthorization(dbAt: int -> Database, now: int, force: bool) returns (reading: Refreshed)
      modifies this`user, this`rights, this`checkedAt
      ensures reading == Reading(dbAt, document, interval, old(State()), now, force)
      ensures State() == Reread(dbAt, document, interval, old(State()), now, force).(open := true)
    {
      if !force && interval != 0 && checkedAt.Some? && now - checkedAt.value < interval {
        return Allowed(Info(rights, isOwner));
      }
      var db := dbAt(now);
      match user
      case Anonymous => return Refused;
      case Guest(token, _) =>
        var byToken := TokenAccess(db, token, document, now);
        if byToken.None? {
          return Refused;
        }
        rights := byToken.value;
        user := Guest(token, rights);
        checkedAt := Some(now);
        return Allowed(Info(rights, isOwner));
      case _ =>
        reading := RefreshUser(db, now);
    }

    /** The part for logged-in users. */
    method RefreshUser(db: Database, now: int) returns (reading: Refreshed)
      requires user.Plain? || user.TokenUser?
      modifies this`rights, this`checkedAt
      ensures isOwner == old(isOwner) && user == old(user)
      ensures reading == Refresh(db, user, document, old(Info(rights, isOwner)), now)
      ensures Info(rights, isOwner) == if reading.Allowed? then reading.info else old(Info(rights, isOwner))
      ensures checkedAt == if reading.Allowed? then Some(now) else old(checkedAt)
    {
      if isOwner {
        checkedAt := Some(now);
        return Allowed(Info(rights, isOwner));
      }
      if user.TokenUser? {
        return Raises;
      }
      if (document, user.id) !in db.grants {
        return Refused;
      }
      rights := db.grants[(document, user.id)];
      checkedAt := Some(now);
      return Allowed(Info(rights, isOwner));
    }
  }
}
