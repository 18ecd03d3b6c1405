/** The version, the diff log and the node as one history; what catching up from the log gives a client. */
module Replay {
  import opened Prelude
  import opened Access
  import opened Comments
  import opened Documents
  import opened Session

  function StepsIn(d: Diff): seq<Step> {
    if d.ds.Some? then d.ds.value else []
  }

  /** The node after a sequence of accepted diffs. */
  function Fold<N>(cfg: Config<N>, base: N, history: seq<Diff>): Option<N>
    decreases |history|
  {
    if history == [] then Some(base)
    else match Fold(cfg, base, history[..|history| - 1])
      case None => None
      case Some(node) => ApplySteps(cfg, StepsIn(history[|history| - 1]), node)
  }

  lemma FoldSnoc<N>(cfg: Config<N>, base: N, history: seq<Diff>, d: Diff)
    ensures Fold(cfg, base, history + [d]) ==
      match Fold(cfg, base, history) case None => None case Some(node) => ApplySteps(cfg, StepsIn(d), node)
  {
    assert (history + [d])[..|history|] == history;
  }

  lemma {:induction false} FoldPrefix<N>(cfg: Config<N>, base: N, history: seq<Diff>, n: nat)
    requires n <= |history| && Fold(cfg, base, history).Some?
    ensures Fold(cfg, base, history[..n]).Some?
    decreases |history|
  {
    if n == |history| {
      assert history[..n] == history;
    } else {
      FoldPrefix(cfg, base, history[..|history| - 1], n);
      assert history[..|history| - 1][..n] == history[..n];
    }
  }

  /** `history` is every diff accepted since version `start`, when the node was `base`. */
  ghost predicate Faithful<N>(cfg: Config<N>, base: N, start: int, history: seq<Diff>, core: Core<N>) {
    && !core.doc.e2ee
    && core.node.Some?
    && core.doc.version == start + |history|
    && core.doc.diffs == Last(history, HISTORY_LENGTH)
    && Fold(cfg, base, history) == core.node
    && forall i :: 0 <= i < |history| ==> history[i].v == start + i
  }

  predicate SaltMatches<N>(core: Core<N>, d: Diff) {
    d.salt.Some? && core.doc.salt.Some? && d.salt == core.doc.salt && d.ep.Some?
  }

  /** When a diff enters the document. */
  predicate Accepts<N>(cfg: Config<N>, core: Core<N>, role: Role, d: Diff) {
    && !Discarded(cfg, core, role, d)
    && d.v == core.doc.version
    && (if core.doc.e2ee then SaltMatches(core, d) else StepsOf(cfg, core, d).Some?)
  }

  function Accepted<N>(cfg: Config<N>, core: Core<N>, role: Role, d: Diff, history: seq<Diff>): seq<Diff> {
    if Accepts(cfg, core, role, d) then history + [d] else history
  }

  lemma SidecarsOnlyTouch<N>(core: Core<N>, d: Diff, role: Role)
    ensures var c := ApplySidecars(core, d, role).0;
      c == core.(doc := core.doc.(title := c.doc.title, comments := c.doc.comments, bibliography := c.doc.bibliography),
                 row := core.row.(title := c.row.title), images := c.images)
  {
    var titled := ApplyTitle(core, d);
    var c1 := ApplyComments(titled, d).0;
    var c2 := ApplyBibliography(c1, d).0;
    var c3 := ApplyImages(c2, d, role).0;
    assert titled == core.(doc := core.doc.(title := titled.doc.title), row := core.row.(title := titled.row.title));
    assert c1 == titled.(doc := titled.doc.(comments := c1.doc.comments));
    assert c2 == c1.(doc := c1.doc.(bibliography := c2.doc.bibliography));
    assert c3 == c2.(images := c3.images);
    hide ApplyTitle, ApplyComments, ApplyBibliography, ApplyImages;
  }

  lemma AbsentSidecars<N>(core: Core<N>, d: Diff, role: Role)
    ensures var c := ApplySidecars(core, d, role).0;
      && (d.ti.None? ==> c.row.title == core.row.title && c.doc.title == core.doc.title)
      && (d.iu.None? ==> c.images == core.images)
      && (d.bu.None? ==> c.doc.bibliography == core.doc.bibliography)
      && (d.cu.None? ==> c.doc.comments == core.doc.comments)
  {
    hide PyFold, UpdateBibliography, UpdateImages, Last;
  }

  lemma SidecarsLeaveTheRest<N>(core: Core<N>, d: Diff, role: Role)
    ensures var c := ApplySidecars(core, d, role).0;
      && c.doc.version == core.doc.version && c.doc.diffs == core.doc.diffs && c.doc.e2ee == core.doc.e2ee
      && c.doc.content == core.doc.content && c.doc.salt == core.doc.salt && c.doc.iterations == core.doc.iterations
      && c.doc.snapshotVersion == core.doc.snapshotVersion
      && c.node == core.node && c.nodeUpdates == core.nodeUpdates && c.lastSaved == core.lastSaved
      && c.row == core.row.(title := c.row.title)
      && (d.ti.None? ==> c.row.title == core.row.title && c.doc.title == core.doc.title)
      && (d.iu.None? ==> c.images == core.images)
      && (d.bu.None? ==> c.doc.bibliography == core.doc.bibliography)
      && (d.cu.None? ==> c.doc.comments == core.doc.comments)
  {
    SidecarsOnlyTouch(core, d, role);
    AbsentSidecars(core, d, role);
    hide ApplySidecars;
  }

  lemma SaveLeavesTheDocument<N>(cfg: Config<N>, core: Core<N>, force: bool)
    ensures var c := Save(cfg, core, force);
      && c.doc == core.doc.(content := c.doc.content) && c.node == core.node && c.images == core.images
  {
  }

  lemma PlainCountsAccepted<N>(cfg: Config<N>, core: Core<N>, roles: map<nat, Role>, id: nat, d: Diff)
    requires id in roles && cfg.saveInterval > 0
    ensures var c := AcceptPlain(cfg, core, roles, id, d).core;
      var stepped := StepsOf(cfg, core, d);
      && c.doc.version == core.doc.version + (if stepped.Some? then 1 else 0)
      && c.doc.diffs == (if stepped.Some? then Last(core.doc.diffs + [d], HISTORY_LENGTH) else core.doc.diffs)
      && c.doc.e2ee == core.doc.e2ee
      && c.node == if stepped.Some? then stepped.value.node else core.node
  {
    SaveLeavesTheDocument(cfg, core, false);
    match StepsOf(cfg, core, d)
    case None =>
    case Some(stepped) =>
      SidecarsLeaveTheRest(Log(stepped, d), d, roles[id]);
      SaveLeavesTheDocument(cfg, ApplySidecars(Log(stepped, d), d, roles[id]).0, false);
      assert stepped.doc == core.doc;
    hide Last, Save, ApplySidecars, StepsOf, ReadableMail;
  }

  /** The version counts accepted diffs: it moves by one exactly when the diff is accepted, whatever else happens. */
  lemma VersionCountsAccepted<N>(cfg: Config<N>, core: Core<N>, order: seq<nat>, roles: map<nat, Role>, id: nat,
                                 d: Diff)
    requires id in roles && cfg.saveInterval > 0
    ensures var e := HandleDiff(cfg, core, order, roles, id, d);
      && e.core.doc.version == core.doc.version + (if Accepts(cfg, core, roles[id], d) then 1 else 0)
      && e.core.doc.diffs == (if Accepts(cfg, core, roles[id], d) then Last(core.doc.diffs + [d], HISTORY_LENGTH)
                              else core.doc.diffs)
      && e.core.doc.e2ee == core.doc.e2ee
      && e.core.node == (if Accepts(cfg, core, roles[id], d) && !core.doc.e2ee
                         then StepsOf(cfg, core, d).value.node else core.node)
  {
    hide Last, Save, AcceptPlain, StepsOf, Missing, Discarded, FirstWriter;
    SaveLeavesTheDocument(cfg, core, false);
    PlainCountsAccepted(cfg, core, roles, id, d);
  }

  /** Every diff a participant sends, accepted or not, keeps version, log and node in step with the history. */
  lemma DiffKeepsFaithful<N>(cfg: Config<N>, base: N, start: int, history: seq<Diff>, core: Core<N>,
                             order: seq<nat>, roles: map<nat, Role>, id: nat, d: Diff)
    requires id in roles && cfg.saveInterval > 0
    requires Faithful(cfg, base, start, history, core)
    ensures Faithful(cfg, base, start, Accepted(cfg, core, roles[id], d, history),
                     HandleDiff(cfg, core, order, roles, id, d).core)
  {
    hide Last, HandleDiff, Discarded;
    VersionCountsAccepted(cfg, core, order, roles, id, d);
    if Accepts(cfg, core, roles[id], d) {
      FoldSnoc(cfg, base, history, d);
      LastAppend(history, [d], HISTORY_LENGTH);
    }
  }

  // ---- The client's side of it

  /** What the client has confirmed, and its own diff that is waiting for a confirmation. */
  datatype Client<N> = Client(ver: int, node: N, pending: Option<Diff>)

  /** The client applies a diff, its own on confirmation, only when its `v` is the client's version. */
  function Absorb<N>(cfg: Config<N>, c: Client<N>, d: Diff): Client<N> {
    if d.v != c.ver then c
    else match ApplySteps(cfg, StepsIn(d), c.node)
      case None => c
      case Some(node) => c.(ver := c.ver + 1, node := node)
  }

  function Hear<N>(cfg: Config<N>, c: Client<N>, msg: Msg): Client<N> {
    match msg
    case DiffMsg(d) => Absorb(cfg, c, d)
    case ConfirmDiff(rid) =>
      if c.pending.Some? && c.pending.value.rid == Some(rid)
      then Absorb(cfg, c, c.pending.value).(pending := None) else c
    case RejectDiff(rid) =>
      if c.pending.Some? && c.pending.value.rid == Some(rid) then c.(pending := None) else c
    case _ => c
  }

  function HearAll<N>(cfg: Config<N>, c: Client<N>, msgs: seq<Msg>): Client<N>
    decreases |msgs|
  {
    if msgs == [] then c else HearAll(cfg, Hear(cfg, c, msgs[0]), msgs[1..])
  }

  /** A message tells the truth about the history: its diff is the one accepted at that version. */
  ghost predicate TruthfulDiff(start: int, history: seq<Diff>, d: Diff) {
    && start <= d.v < start + |history|
    && d.ds == history[d.v - start].ds
  }

  /** The client is where the server was after `ver - start` diffs. */
  ghost predicate Caught<N>(cfg: Config<N>, base: N, start: int, history: seq<Diff>, ver: int, node: N) {
    start <= ver <= start + |history| && Fold(cfg, base, history[..ver - start]) == Some(node)
  }

  lemma CaughtExtends<N>(cfg: Config<N>, base: N, start: int, history: seq<Diff>, d: Diff, ver: int, node: N)
    requires Caught(cfg, base, start, history, ver, node)
    ensures Caught(cfg, base, start, history + [d], ver, node)
  {
    assert (history + [d])[..ver - start] == history[..ver - start];
  }

  /** Absorbing a truthful diff at the client's own version succeeds and keeps it on the server's path. */
  lemma AbsorbKeepsCaught<N>(cfg: Config<N>, base: N, start: int, history: seq<Diff>, c: Client<N>, d: Diff)
    requires Fold(cfg, base, history).Some?
    requires Caught(cfg, base, start, history, c.ver, c.node)
    requires TruthfulDiff(start, history, d)
    ensures var c' := Absorb(cfg, c, d);
      && Caught(cfg, base, start, history, c'.ver, c'.node)
      && c'.ver == c.ver + (if d.v == c.ver then 1 else 0)
      && c'.pending == c.pending
  {
    if d.v == c.ver {
      var n := c.ver - start;
      FoldSnoc(cfg, base, history[..n], history[n]);
      assert history[..n + 1] == history[..n] + [history[n]];
      FoldPrefix(cfg, base, history, n + 1);
    }
  }

  /** A run of consecutive truthful diffs takes the client from its version to the end of the run. */
  lemma {:induction false} HearRun<N>(cfg: Config<N>, base: N, start: int, history: seq<Diff>, c: Client<N>,
                                      msgs: seq<Msg>)
    requires Fold(cfg, base, history).Some?
    requires Caught(cfg, base, start, history, c.ver, c.node)
    requires forall i :: 0 <= i < |msgs| ==>
      msgs[i].DiffMsg? && msgs[i].d.v == c.ver + i && TruthfulDiff(start, history, msgs[i].d)
    ensures var c' := HearAll(cfg, c, msgs);
      Caught(cfg, base, start, history, c'.ver, c'.node) && c'.ver == c.ver + |msgs|
    decreases |msgs|
  {
    if msgs != [] {
      hide Caught, TruthfulDiff, Fold, Absorb;
      AbsorbKeepsCaught(cfg, base, start, history, c, msgs[0].d);
      HearRun(cfg, base, start, history, Hear(cfg, c, msgs[0]), msgs[1..]);
    }
  }

  lemma SanitizeKeepsSteps(d: Diff, role: Role, comments: CommentMap)
    ensures var seen := Sanitize(d, role, comments);
      seen.v == d.v && seen.ds == d.ds && seen.serverFix == d.serverFix
  {
    hide FilterUpdates;
  }

  /** The missing messages are exactly the accepted diffs from the client's version on, in order. */
  lemma MissingIsTheTail<N>(cfg: Config<N>, base: N, start: int, history: seq<Diff>, core: Core<N>, role: Role,
                            from: int)
    requires Faithful(cfg, base, start, history, core)
    requires from < core.doc.version <= from + |core.doc.diffs|
    ensures var msgs := Missing(core.doc.diffs, core.doc.version - from, role, PlainComments(core.doc.comments));
      && start <= from
      && |msgs| == core.doc.version - from
      && forall i :: 0 <= i < |msgs| ==>
        msgs[i].DiffMsg? && msgs[i].d.v == from + i && msgs[i].d.serverFix
        && TruthfulDiff(start, history, msgs[i].d)
  {
    hide Fold, Sanitize;
    var behind := core.doc.version - from;
    LastOfLast(history, HISTORY_LENGTH, behind);
    var tail := Last(core.doc.diffs, behind);
    assert tail == history[from - start..];
    hide Last;
    forall i | 0 <= i < behind
      ensures var d := Sanitize(tail[i].(serverFix := true), role, PlainComments(core.doc.comments));
        d.v == from + i && d.serverFix && TruthfulDiff(start, history, d)
    {
      SanitizeKeepsSteps(tail[i].(serverFix := true), role, PlainComments(core.doc.comments));
    }
  }

  /** Catching up: a client that is behind but within the log is sent exactly the diffs it misses and a confirmation,
      and replaying them from its own node gives the server's node; in every other case it is told to refetch. */
  lemma CatchUpReachesTheServer<N>(cfg: Config<N>, base: N, start: int, history: seq<Diff>, core: Core<N>,
                                   roles: map<nat, Role>, id: nat, c: Client<N>)
    requires id in roles
    requires Faithful(cfg, base, start, history, core)
    requires Caught(cfg, base, start, history, c.ver, c.node) && c.ver < core.doc.version
    ensures var e := CheckVersion(cfg, core, roles, id, Some(c.ver), false);
      if c.ver + |core.doc.diffs| >= core.doc.version then
        var c' := HearAll(cfg, c, e.mail[id][..|e.mail[id]| - 1]);
        && |e.mail[id]| == core.doc.version - c.ver + 1
        && e.mail[id][|e.mail[id]| - 1] == ConfirmVersion(core.doc.version)
        && c'.ver == core.doc.version && Some(c'.node) == core.node
      else e.mail[id] == [Refetch]
  {
    hide Missing, Last, Fold, TruthfulDiff, Save;
    if c.ver + |core.doc.diffs| >= core.doc.version {
      MissingIsTheTail(cfg, base, start, history, core, roles[id], c.ver);
      var msgs := Missing(core.doc.diffs, core.doc.version - c.ver, roles[id], PlainComments(core.doc.comments));
      HearRun(cfg, base, start, history, c, msgs);
      var e := CheckVersion(cfg, core, roles, id, Some(c.ver), false);
      assert e.mail[id][..|e.mail[id]| - 1] == msgs;
      assert history[..|history|] == history;
    }
  }

  lemma StaleDiffMail<N>(cfg: Config<N>, core: Core<N>, order: seq<nat>, roles: map<nat, Role>, id: nat, d: Diff)
    requires id in roles && cfg.saveInterval > 0
    requires d.v < core.doc.version && !Discarded(cfg, core, roles[id], d)
    ensures var e := HandleDiff(cfg, core, order, roles, id, d);
      if d.v + |core.doc.diffs| >= core.doc.version then
        && e.core == core
        && e.mail[id] == Missing(core.doc.diffs, core.doc.version - d.v, roles[id], PlainComments(core.doc.comments))
      else e.mail[id] == [Refetch]
  {
    hide Missing, AcceptPlain, AcceptEncrypted, Discarded, Save;
  }

  /** The same diffs, without the confirmation, answer a diff made on an older version. */
  lemma StaleDiffIsAnswered<N>(cfg: Config<N>, base: N, start: int, history: seq<Diff>, core: Core<N>,
                               order: seq<nat>, roles: map<nat, Role>, id: nat, d: Diff, c: Client<N>)
    requires id in roles && cfg.saveInterval > 0
    requires Faithful(cfg, base, start, history, core)
    requires Caught(cfg, base, start, history, c.ver, c.node) && d.v == c.ver < core.doc.version
    requires !Discarded(cfg, core, roles[id], d)
    ensures var e := HandleDiff(cfg, core, order, roles, id, d);
      if c.ver + |core.doc.diffs| >= core.doc.version then
        var c' := HearAll(cfg, c, e.mail[id]);
        e.core == core && c'.ver == core.doc.version && Some(c'.node) == core.node
      else e.mail[id] == [Refetch]
  {
    hide HandleDiff, Discarded, Missing, Last, Fold, TruthfulDiff;
    StaleDiffMail(cfg, core, order, roles, id, d);
    if c.ver + |core.doc.diffs| >= core.doc.version {
      MissingIsTheTail(cfg, base, start, history, core, roles[id], c.ver);
      var msgs := Missing(core.doc.diffs, core.doc.version - c.ver, roles[id], PlainComments(core.doc.comments));
      HearRun(cfg, base, start, history, c, msgs);
      assert history[..|history|] == history;
    }
  }

  // ---- Broadcasting

  function CountDiffs(msgs: seq<Msg>): nat {
    if msgs == [] then 0 else (if msgs[0].DiffMsg? then 1 else 0) + CountDiffs(msgs[1..])
  }

  function CountConfirms(msgs: seq<Msg>): nat {
    if msgs == [] then 0 else (if msgs[0].ConfirmDiff? then 1 else 0) + CountConfirms(msgs[1..])
  }

  /** What a sender could check: the document is encrypted, or the diff carries a `rid` and its updates have what their
      branches read and name only what exists at their turn. */
  predicate CanBeRelayed<N>(core: Core<N>, role: Role, d: Diff) {
    core.doc.e2ee || (d.rid.Some? && UpdatesFit(core.doc, d, role))
  }

  lemma UpdatesFitTheLogged<N>(cfg: Config<N>, core: Core<N>, d: Diff, role: Role)
    requires StepsOf(cfg, core, d).Some?
    ensures ApplySidecars(Log(StepsOf(cfg, core, d).value, d), d, role).1 <==> UpdatesFit(core.doc, d, role)
  {
    SidecarsOkIff(Log(StepsOf(cfg, core, d).value, d), d, role);
    hide ApplySidecars, BatchFits, EntriesFit, ImageFits, ApplySteps, Last;
  }

  ghost predicate ReachesEveryone(roles: map<nat, Role>, id: nat, d: Diff, mail: map<nat, seq<Msg>>)
    requires id in roles
  {
    && mail.Keys == roles.Keys
    && CountDiffs(mail[id]) == 0
    && CountConfirms(mail[id]) == (if d.rid.Some? then 1 else 0)
    && (forall k :: k in roles && k != id ==> CountDiffs(mail[k]) == 1 && CountConfirms(mail[k]) == 0)
    && (forall k, i :: k in roles && 0 <= i < |mail[k]| && mail[k][i].DiffMsg? ==>
          mail[k][i].d.v == d.v && mail[k][i].d.ds == d.ds && mail[k][i].d.ep == d.ep)
  }

  lemma CountTwo(msgs: seq<Msg>)
    requires |msgs| <= 2
    ensures CountDiffs(msgs) == (if |msgs| > 0 && msgs[0].DiffMsg? then 1 else 0)
                              + (if |msgs| > 1 && msgs[1].DiffMsg? then 1 else 0)
    ensures CountConfirms(msgs) == (if |msgs| > 0 && msgs[0].ConfirmDiff? then 1 else 0)
                                 + (if |msgs| > 1 && msgs[1].ConfirmDiff? then 1 else 0)
  {
  }

  lemma OneOrTwoEach(roles: map<nat, Role>, id: nat, d: Diff, mail: map<nat, seq<Msg>>)
    requires id in roles && mail.Keys == roles.Keys
    requires forall k :: k in roles ==>
      var msgs := mail[k];
      && |msgs| <= 2
      && (k == id ==> forall i :: 0 <= i < |msgs| ==> !msgs[i].DiffMsg?)
      && (k == id ==> (if |msgs| > 0 && msgs[0].ConfirmDiff? then 1 else 0)
                      + (if |msgs| > 1 && msgs[1].ConfirmDiff? then 1 else 0) == (if d.rid.Some? then 1 else 0))
      && (k != id ==> |msgs| > 0 && msgs[|msgs| - 1].DiffMsg?
                      && msgs[|msgs| - 1].d.v == d.v && msgs[|msgs| - 1].d.ds == d.ds && msgs[|msgs| - 1].d.ep == d.ep
                      && (|msgs| == 2 ==> !msgs[0].DiffMsg? && !msgs[0].ConfirmDiff?))
    ensures ReachesEveryone(roles, id, d, mail)
  {
    forall k | k in roles
      ensures CountDiffs(mail[k]) == (if k == id then 0 else 1)
      ensures CountConfirms(mail[k]) == (if k == id && d.rid.Some? then 1 else 0)
    {
      CountTwo(mail[k]);
    }
  }

  lemma EncryptedReachesEveryone<N>(cfg: Config<N>, core: Core<N>, order: seq<nat>, roles: map<nat, Role>, id: nat,
                                    d: Diff)
    requires id in roles && cfg.saveInterval > 0 && SaltMatches(core, d)
    ensures var e := AcceptEncrypted(cfg, core, order, roles, id, d);
      e.ok && ReachesEveryone(roles, id, d, e.mail)
  {
    hide Last, FirstWriter, ReachesEveryone;
    OneOrTwoEach(roles, id, d, AcceptEncrypted(cfg, core, order, roles, id, d).mail);
  }

  lemma PlainReachesEveryoneIff<N>(cfg: Config<N>, core: Core<N>, roles: map<nat, Role>, id: nat, d: Diff, other: nat)
    requires id in roles && cfg.saveInterval > 0 && !core.doc.e2ee && StepsOf(cfg, core, d).Some?
    requires other in roles && other != id
    ensures var e := AcceptPlain(cfg, core, roles, id, d);
      && (ReachesEveryone(roles, id, d, e.mail) <==> CanBeRelayed(core, roles[id], d))
      && (e.ok <==> CanBeRelayed(core, roles[id], d))
  {
    UpdatesFitTheLogged(cfg, core, d, roles[id]);
    hide Last, WriteRow, Save, ApplySidecars, StepsOf, FilterUpdates, Log, UpdatesFit;
    var e := AcceptPlain(cfg, core, roles, id, d);
    if CanBeRelayed(core, roles[id], d) {
      hide ReachesEveryone;
      OneOrTwoEach(roles, id, d, e.mail);
    } else {
      assert e.mail[other] == [];
      assert CountDiffs(e.mail[other]) == 0;
    }
  }

  /** An accepted diff yields exactly one frame for every other participant and one confirmation for a sender that
      asked for one, exactly when it can be relayed. Otherwise it has changed the document and the log, and nobody
      hears of it: the handler stops with an exception after the version has moved. */
  lemma AcceptedReachesEveryoneIff<N>(cfg: Config<N>, core: Core<N>, order: seq<nat>, roles: map<nat, Role>, id: nat,
                                      d: Diff)
    requires id in roles && cfg.saveInterval > 0 && Accepts(cfg, core, roles[id], d)
    requires exists k :: k in roles && k != id
    ensures var e := HandleDiff(cfg, core, order, roles, id, d);
      && (ReachesEveryone(roles, id, d, e.mail) <==> CanBeRelayed(core, roles[id], d))
      && (e.ok <==> CanBeRelayed(core, roles[id], d))
  {
    hide AcceptPlain, AcceptEncrypted, StepsOf, ApplySidecars, Log, ReachesEveryone, Discarded, UpdatesFit;
    if core.doc.e2ee {
      EncryptedReachesEveryone(cfg, core, order, roles, id, d);
    } else {
      var other :| other in roles && other != id;
      PlainReachesEveryoneIff(cfg, core, roles, id, d, other);
    }
  }

  /** An update of image 1 with the given title and copyright. */
  function Captioning(mine: bool, title: Json, copyright: Json): seq<ImageUpdate> {
    [ImageUpdate(ImageId(1), SetImage(mine, Some(title), Some(copyright)))]
  }

  /** Diffs that are accepted and that nobody but the log ever sees: one without a request id, one whose image update
      and one whose bibliography update lacks its type, one that gives an image of the sender's a null title, one that
      gives it a null copyright, and any update of an image by a guest or by a user who came by a share link. */
  lemma AcceptedUnheard<N>(cfg: Config<N>, core: Core<N>, order: seq<nat>, roles: map<nat, Role>, id: nat, d: Diff)
    requires id in roles && roles[id].rights == Write && cfg.saveInterval > 0
    requires !core.doc.e2ee && !cfg.e2eeRequired && core.node.Some? && core.doc.bibliography.Plain?
    requires var plain := Diff(core.doc.version, Some("r"), Some([]), None, None, None, None, None, None, false);
      || d == plain.(rid := None)
      || d == plain.(iu := Some([ImageUpdate(ImageId(1), NoImageType)]))
      || d == plain.(bu := Some([BibUpdate(Some(Str("b")), NoBibType)]))
      || d == plain.(iu := Some(Captioning(true, Null, Str("c"))))
      || d == plain.(iu := Some(Captioning(true, Str("t"), Null)))
      || (!roles[id].stored && exists mine :: d == plain.(iu := Some(Captioning(mine, Str("t"), Str("c")))))
    ensures var e := HandleDiff(cfg, core, order, roles, id, d);
      && Accepts(cfg, core, roles[id], d)
      && e.core.doc.version == core.doc.version + 1
      && !e.ok && forall k :: k in roles ==> e.mail[k] == []
  {
    assert StepsOf(cfg, core, d).Some?;
    assert Accepts(cfg, core, roles[id], d);
    assert !CanBeRelayed(core, roles[id], d) by {
      if d.iu.Some? {
        assert !ImageFits(d.iu.value[0], roles[id]);
      }
    }
    VersionCountsAccepted(cfg, core, order, roles, id, d);
    UpdatesFitTheLogged(cfg, core, d, roles[id]);
    hide ApplySidecars, Save, Log, StepsOf, UpdatesFit, Discarded, Accepts;
  }

  predicate Asks(msgs: seq<Msg>) {
    exists i :: 0 <= i < |msgs| && msgs[i].RequestSnapshot?
  }

  predicate Writes(order: seq<nat>, roles: map<nat, Role>, i: nat)
    requires i < |order|
  {
    order[i] in roles && roles[order[i]].rights == Write
  }

  /** The first writer is the first participant with `write`, if there is one. */
  lemma {:induction false} FirstWriterIsFirst(order: seq<nat>, roles: map<nat, Role>, i: nat)
    requires i < |order| && Writes(order, roles, i) && forall j :: 0 <= j < i ==> !Writes(order, roles, j)
    ensures FirstWriter(order, roles) == Some(order[i])
    decreases i
  {
    if i > 0 {
      assert !Writes(order, roles, 0);
      assert forall j :: 0 <= j < i - 1 ==> Writes(order[1..], roles, j) == Writes(order, roles, j + 1);
      FirstWriterIsFirst(order[1..], roles, i - 1);
    }
  }

  /** An accepted encrypted diff asks one participant for a snapshot, the first with `write`, exactly when the version
      has reached a multiple of the interval; nobody else is ever asked. */
  lemma OneWriterIsAsked<N>(cfg: Config<N>, core: Core<N>, order: seq<nat>, roles: map<nat, Role>, id: nat, d: Diff,
                            k: nat)
    requires id in roles && k in roles && cfg.saveInterval > 0 && SaltMatches(core, d)
    ensures var mail := AcceptEncrypted(cfg, core, order, roles, id, d).mail;
      Asks(mail[k]) <==> (core.doc.version + 1) % cfg.saveInterval == 0 && FirstWriter(order, roles) == Some(k)
  {
    hide FirstWriter, Last;
    var mail: map<nat, seq<Msg>> := AcceptEncrypted(cfg, core, order, roles, id, d).mail;
    if (core.doc.version + 1) % cfg.saveInterval == 0 && FirstWriter(order, roles) == Some(k) {
      assert mail[k][0].RequestSnapshot?;
    }
  }
}
