/** What every participant is sent when a diff or a question for the version arrives, told from the message, the
    document and the rights alone. */
module Recipients {
  import opened Prelude
  import opened Access
  import opened Comments
  import opened Link
  import opened Documents
  import opened Session
  import opened Replay

  // ---- Which comment entries a recipient is shown

  /** The entry is the reader's, is assigned to them, or deletes a comment that is theirs or not there. */
  ghost predicate Concerns(u: Update, reader: string, stored: CommentMap) {
    || (if u.user.Some? then PyStr(u.user.value) == reader else reader == "None")
    || (u.assignedUser.Some? && u.assignedUser.value != Null && PyStr(u.assignedUser.value) == reader)
    || (u.kind == Delete &&
        var id := if u.id.Some? then Canon(u.id.value) else Null;
        id !in stored || PyStr(stored[id].user) == reader)
  }

  ghost predicate Ascending(at: seq<nat>) {
    forall j, l :: 0 <= j < l < |at| ==> at[j] < at[l]
  }

  ghost predicate Points(us: seq<Update>, out: seq<Update>, at: seq<nat>, reader: string, stored: CommentMap) {
    && |at| == |out|
    && forall j :: 0 <= j < |at| ==> at[j] < |us| && out[j] == us[at[j]] && Concerns(us[at[j]], reader, stored)
  }

  ghost predicate MissesNone(us: seq<Update>, at: seq<nat>, reader: string, stored: CommentMap) {
    forall i: nat :: i < |us| && Concerns(us[i], reader, stored) ==> i in at
  }

  /** `out` are the entries of `us` that concern the reader, at the ascending positions `at`. */
  ghost predicate Picks(us: seq<Update>, out: seq<Update>, at: seq<nat>, reader: string, stored: CommentMap) {
    Points(us, out, at, reader, stored) && Ascending(at) && MissesNone(us, at, reader, stored)
  }

  ghost predicate IsSelection(us: seq<Update>, out: seq<Update>, reader: string, stored: CommentMap) {
    exists at: seq<nat> :: Picks(us, out, at, reader, stored)
  }

  /** `shown` is `d` but for its comment entries, and of these the recipient gets what their rights allow. */
  ghost predicate Shows(role: Role, d: Diff, shown: Diff, stored: CommentMap) {
    && shown == d.(cu := shown.cu)
    && (d.cu.None? ==> shown.cu.None?)
    && (d.cu.Some? ==>
          match role.rights
          case ReadWithoutComments => shown.cu.None?
          case Review => shown.cu.Some? && IsSelection(d.cu.value, shown.cu.value, role.user, stored)
          case ReviewTracked => shown.cu.Some? && IsSelection(d.cu.value, shown.cu.value, role.user, stored)
          case Write => shown.cu == d.cu
          case WriteTracked => shown.cu == d.cu
          case CommentRight => shown.cu == d.cu
          case Read => shown.cu == d.cu)
  }

  function Moved(at: seq<nat>): (moved: seq<nat>) {
    seq(|at|, i requires 0 <= i < |at| => at[i] + 1)
  }

  lemma MissesNoneFurther(us: seq<Update>, at: seq<nat>, more: seq<nat>, reader: string, stored: CommentMap)
    requires us != [] && MissesNone(us[1..], at, reader, stored)
    requires forall i :: i in at ==> i + 1 in more
    requires Concerns(us[0], reader, stored) ==> 0 in more
    ensures MissesNone(us, more, reader, stored)
  {
    hide Concerns;
    forall i: nat | i < |us| && Concerns(us[i], reader, stored) ensures i in more {
      if i > 0 {
        assert us[1..][i - 1] == us[i];
      }
    }
  }

  lemma MovedHas(at: seq<nat>, first: seq<nat>)
    ensures forall i :: i in at ==> i + 1 in first + Moved(at)
  {
    forall i | i in at ensures i + 1 in first + Moved(at) {
      var j :| 0 <= j < |at| && at[j] == i;
      assert (first + Moved(at))[|first| + j] == i + 1;
    }
  }

  lemma AscendingFurther(at: seq<nat>)
    requires Ascending(at)
    ensures Ascending(Moved(at)) && Ascending([0] + Moved(at))
  {
  }

  lemma PointsFurther(us: seq<Update>, out: seq<Update>, at: seq<nat>, reader: string, stored: CommentMap)
    requires us != [] && Points(us[1..], out, at, reader, stored)
    ensures Points(us, out, Moved(at), reader, stored)
    ensures Concerns(us[0], reader, stored) ==> Points(us, [us[0]] + out, [0] + Moved(at), reader, stored)
  {
    hide Concerns;
    forall j | 0 <= j < |at| ensures us[at[j] + 1] == us[1..][at[j]] {
    }
  }

  lemma PicksFurther(us: seq<Update>, out: seq<Update>, at: seq<nat>, reader: string, stored: CommentMap)
    requires us != [] && Picks(us[1..], out, at, reader, stored)
    ensures Concerns(us[0], reader, stored) ==> Picks(us, [us[0]] + out, [0] + Moved(at), reader, stored)
    ensures !Concerns(us[0], reader, stored) ==> Picks(us, out, Moved(at), reader, stored)
  {
    hide Concerns, Points, Ascending, Moved, MissesNone;
    PointsFurther(us, out, at, reader, stored);
    AscendingFurther(at);
    if Concerns(us[0], reader, stored) {
      MovedHas(at, [0]);
      MissesNoneFurther(us, at, [0] + Moved(at), reader, stored);
    } else {
      MovedHas(at, []);
      assert [] + Moved(at) == Moved(at);
      MissesNoneFurther(us, at, Moved(at), reader, stored);
    }
  }

  lemma {:induction false} VisiblePicks(us: seq<Update>, reader: string, stored: CommentMap) returns (at: seq<nat>)
    ensures Picks(us, VisibleOnly(us, reader, stored), at, reader, stored)
    decreases |us|
  {
    if us == [] {
      at := [];
    } else {
      var rest := VisiblePicks(us[1..], reader, stored);
      var out := VisibleOnly(us[1..], reader, stored);
      assert EntryVisible(us[0], reader, stored) <==> Concerns(us[0], reader, stored);
      hide Concerns, EntryVisible, Picks;
      PicksFurther(us, out, rest, reader, stored);
      if EntryVisible(us[0], reader, stored) {
        at := [0] + Moved(rest);
      } else {
        assert [] + out == out;
        at := Moved(rest);
      }
    }
  }

  lemma SanitizeShows(d: Diff, role: Role, stored: CommentMap)
    ensures Shows(role, d, Sanitize(d, role, stored), stored)
  {
    if d.cu.Some? && role.rights in {Review, ReviewTracked} {
      var at := VisiblePicks(d.cu.value, role.user, stored);
      assert IsSelection(d.cu.value, VisibleOnly(d.cu.value, role.user, stored), role.user, stored);
    }
    hide IsSelection, VisibleOnly;
  }

  // ---- Mail

  ghost predicate Silent(roles: map<nat, Role>, mail: map<nat, seq<Msg>>) {
    mail.Keys == roles.Keys && forall k :: k in roles ==> mail[k] == []
  }

  ghost predicate OnlyTo(roles: map<nat, Role>, mail: map<nat, seq<Msg>>, id: nat, msgs: seq<Msg>)
    requires id in roles
  {
    mail.Keys == roles.Keys && mail[id] == msgs && forall k :: k in roles && k != id ==> mail[k] == []
  }

  /** The diffs at the end of the log that a client at version `v` lacks, each as it may see them. */
  ghost predicate LateDiffs<N>(core: Core<N>, role: Role, v: int, msgs: seq<Msg>) {
    var n := |core.doc.diffs|;
    var behind := core.doc.version - v;
    && 0 <= behind <= n && |msgs| == behind
    && forall i :: 0 <= i < behind ==>
         && msgs[i].DiffMsg?
         && Shows(role, core.doc.diffs[n - behind + i].(serverFix := true), msgs[i].d, PlainComments(core.doc.comments))
  }

  lemma MissingIsLate<N>(core: Core<N>, role: Role, v: int)
    requires v <= core.doc.version <= v + |core.doc.diffs|
    ensures LateDiffs(core, role, v,
              Missing(core.doc.diffs, core.doc.version - v, role, PlainComments(core.doc.comments)))
  {
    var behind := core.doc.version - v;
    var tail := Last(core.doc.diffs, behind);
    assert |tail| == behind;
    forall i | 0 <= i < behind
      ensures tail[i] == core.doc.diffs[|core.doc.diffs| - behind + i]
      ensures var d := tail[i].(serverFix := true);
        Shows(role, d, Sanitize(d, role, PlainComments(core.doc.comments)), PlainComments(core.doc.comments))
    {
      SanitizeShows(tail[i].(serverFix := true), role, PlainComments(core.doc.comments));
    }
    hide Shows, Sanitize;
  }

  // ---- Which diffs are passed over

  /** The recipient's own entry: everything in it names its sender, or it deletes a comment of theirs or none. */
  ghost predicate OwnEntry(u: Update, sender: string, stored: CommentMap) {
    if u.kind == Delete then
      var id := if u.id.Some? then Canon(u.id.value) else Null;
      id !in stored || PyStr(stored[id].user) == sender
    else
      && (if u.user.Some? then PyStr(u.user.value) == sender else sender == "None")
      && forall j :: 0 <= j < |u.answerUsers| ==> PyStr(u.answerUsers[j]) == sender
  }

  /** Readable where encryption is required; more than comments from someone who may only comment; another's comments
      from someone who may only manage their own. */
  ghost predicate PassedOver<N>(cfg: Config<N>, doc: Doc<N>, role: Role, d: Diff) {
    || (cfg.e2eeRequired && !doc.e2ee)
    || ((role.rights == Review || role.rights == CommentRight) &&
        (|| d.ti.Some? || d.bu.Some? || d.iu.Some?
         || (!doc.e2ee && d.ds.None?)
         || (!doc.e2ee && d.ds.Some? && exists i :: 0 <= i < |d.ds.value| && !MarksComment(d.ds.value[i]))))
    || ((role.rights == Review || role.rights == ReviewTracked) && d.cu.Some? &&
        exists i :: 0 <= i < |d.cu.value| &&
          !OwnEntry(d.cu.value[i], role.user, if doc.comments.Plain? then doc.comments.value else map[]))
  }

  ghost predicate MarksComment(step: Step) {
    && (step.stepType == "addMark" || step.stepType == "removeMark")
    && step.mark.Some? && step.mark.value.kind == "comment"
  }

  lemma DiscardedIsPassedOver<N>(cfg: Config<N>, core: Core<N>, role: Role, d: Diff)
    ensures Discarded(cfg, core, role, d) <==> PassedOver(cfg, core.doc, role, d)
  {
    var stored := PlainComments(core.doc.comments);
    forall u: Update
      ensures OwnEntry(u, role.user, stored) <==>
        if u.kind == Delete then Canon(OrNull(u.id)) in stored ==> PyStr(stored[Canon(OrNull(u.id))].user) == role.user
        else PyStr(OrNull(u.user)) == role.user
             && forall j :: 0 <= j < |u.answerUsers| ==> PyStr(u.answerUsers[j]) == role.user
    {
    }
    hide OwnEntry, PyStr, Canon;
    forall step: Step ensures MarksComment(step) <==> IsCommentStep(step) {
    }
    hide MarksComment, IsCommentStep;
  }

  /** A diff that is passed over changes nothing and nobody hears of it. */
  lemma PassedOverIsSilent<N>(cfg: Config<N>, core: Core<N>, order: seq<nat>, roles: map<nat, Role>, id: nat, d: Diff)
    requires cfg.saveInterval > 0 && id in roles && PassedOver(cfg, core.doc, roles[id], d)
    ensures var f := HandleDiff(cfg, core, order, roles, id, d); f.core == core && f.ok && Silent(roles, f.mail)
  {
    DiscardedIsPassedOver(cfg, core, roles[id], d);
    hide PassedOver, Discarded, AcceptPlain, AcceptEncrypted, Missing, Unfixable;
  }

  ghost predicate StepsApply<N>(cfg: Config<N>, core: Core<N>, d: Diff) {
    d.ds.Some? ==> core.node.Some? && ApplySteps(cfg, d.ds.value, core.node.value).Some?
  }

  /** The version moves on exactly for a diff on the current version that is not passed over and that carries, in an
      encrypted document, an envelope of the document's salt, and in a readable one steps that can be applied. */
  lemma AcceptedIff<N>(cfg: Config<N>, core: Core<N>, order: seq<nat>, roles: map<nat, Role>, id: nat, d: Diff)
    requires cfg.saveInterval > 0 && id in roles
    ensures var c := HandleDiff(cfg, core, order, roles, id, d).core;
      && (c.doc.version == core.doc.version || c.doc.version == core.doc.version + 1)
      && (c.doc.version == core.doc.version + 1 <==>
            && !PassedOver(cfg, core.doc, roles[id], d)
            && d.v == core.doc.version
            && if core.doc.e2ee then d.salt.Some? && d.salt == core.doc.salt && d.ep.Some?
               else StepsApply(cfg, core, d))
  {
    DiscardedIsPassedOver(cfg, core, roles[id], d);
    VersionCountsAccepted(cfg, core, order, roles, id, d);
    hide PassedOver, Discarded, HandleDiff, ApplySteps;
  }

  /** What is accepted comes last in a log of the last thousand. */
  lemma LogIs<N>(cfg: Config<N>, core: Core<N>, order: seq<nat>, roles: map<nat, Role>, id: nat, d: Diff)
    requires cfg.saveInterval > 0 && id in roles
    ensures var was, now := core.doc, HandleDiff(cfg, core, order, roles, id, d).core.doc;
      && (now.version == was.version ==> now.diffs == was.diffs)
      && (now.version == was.version + 1 ==>
            && |now.diffs| == (if |was.diffs| < 1000 then |was.diffs| + 1 else 1000)
            && now.diffs == (was.diffs + [d])[|was.diffs| + 1 - |now.diffs|..])
  {
    VersionCountsAccepted(cfg, core, order, roles, id, d);
    hide HandleDiff, Accepts;
  }

  // ---- Answers to diffs that are not accepted

  /** An encrypted diff on the current version without the salt of the document or without an envelope: its sender is
      told that it is rejected, nobody else hears of it and nothing changes; without a request id, or for want of a salt
      of the document's, the handler raises. */
  lemma WrongSaltIsRejected<N>(cfg: Config<N>, core: Core<N>, order: seq<nat>, roles: map<nat, Role>, id: nat, d: Diff)
    requires cfg.saveInterval > 0 && id in roles && core.doc.e2ee && d.v == core.doc.version
    requires !PassedOver(cfg, core.doc, roles[id], d)
    requires d.salt.None? || d.salt != core.doc.salt || d.ep.None?
    ensures var f := HandleDiff(cfg, core, order, roles, id, d);
      && f.core == core
      && (f.ok <==> d.rid.Some? && (d.salt.Some? ==> core.doc.salt.Some?))
      && (f.ok ==> OnlyTo(roles, f.mail, id, [RejectDiff(d.rid.value)]))
      && (!f.ok ==> Silent(roles, f.mail))
  {
    DiscardedIsPassedOver(cfg, core, roles[id], d);
    hide PassedOver, Discarded, AcceptPlain, Missing, Log, FirstWriter;
  }

  /** The same for a diff in a frame that has crossed a message of the server's. */
  lemma CrossedDiffIsRejected<N>(cfg: Config<N>, core: Core<N>, order: seq<nat>, roles: map<nat, Role>, id: nat,
                                 c: int, d: Diff)
    requires cfg.saveInterval > 0 && id in roles
    ensures var f := Dispatch(cfg, core, order, roles, id, Rejected(c, UpDiff(d)));
      && f.core == core
      && (d.rid.Some? ==> f.ok && OnlyTo(roles, f.mail, id, [RejectDiff(d.rid.value)]))
      && (d.rid.None? ==> !f.ok && Silent(roles, f.mail))
  {
    hide HandleDiff, CheckVersion;
  }

  /** Steps that cannot be applied: every participant, the sender too, is told to refetch and whose diff it was. */
  lemma FailedStepsReachEveryone<N>(cfg: Config<N>, core: Core<N>, order: seq<nat>, roles: map<nat, Role>, id: nat,
                                    d: Diff)
    requires cfg.saveInterval > 0 && id in roles && !core.doc.e2ee && d.v == core.doc.version
    requires !PassedOver(cfg, core.doc, roles[id], d) && !StepsApply(cfg, core, d)
    ensures var f := HandleDiff(cfg, core, order, roles, id, d);
      && f.ok && f.core.node == core.node
      && f.core.doc.version == core.doc.version && f.core.doc.diffs == core.doc.diffs
      && f.mail.Keys == roles.Keys && forall k :: k in roles ==> f.mail[k] == [Refetch, PatchError(roles[id].user)]
  {
    DiscardedIsPassedOver(cfg, core, roles[id], d);
    SaveLeavesTheDocument(cfg, core, false);
    hide PassedOver, Discarded, Missing, Save, ApplySteps, Relayed;
  }

  lemma OldDiffUnfolds<N>(cfg: Config<N>, core: Core<N>, order: seq<nat>, roles: map<nat, Role>, id: nat, d: Diff)
    requires cfg.saveInterval > 0 && id in roles && d.v != core.doc.version
    requires !PassedOver(cfg, core.doc, roles[id], d)
    ensures HandleDiff(cfg, core, order, roles, id, d) ==
      if d.v < core.doc.version <= d.v + |core.doc.diffs| then
        Effect(core, ToOne(roles, id, Missing(core.doc.diffs, core.doc.version - d.v, roles[id],
                                              PlainComments(core.doc.comments))), true)
      else Unfixable(cfg, core, roles, id)
  {
    DiscardedIsPassedOver(cfg, core, roles[id], d);
    hide PassedOver, Discarded, Missing, Save, AcceptPlain, AcceptEncrypted, ToOne, Unfixable;
  }

  /** A diff on an older version gets what was accepted since, one on a version out of the log's reach a refetch. */
  lemma OldDiffIsAnswered<N>(cfg: Config<N>, core: Core<N>, order: seq<nat>, roles: map<nat, Role>, id: nat, d: Diff)
    requires cfg.saveInterval > 0 && id in roles && d.v != core.doc.version
    requires !PassedOver(cfg, core.doc, roles[id], d)
    ensures var f := HandleDiff(cfg, core, order, roles, id, d);
      && f.ok && f.mail.Keys == roles.Keys && OnlyTo(roles, f.mail, id, f.mail[id])
      && if d.v < core.doc.version <= d.v + |core.doc.diffs|
         then f.core == core && LateDiffs(core, roles[id], d.v, f.mail[id])
         else f.mail[id] == [Refetch]
  {
    OldDiffUnfolds(cfg, core, order, roles, id, d);
    if d.v < core.doc.version <= d.v + |core.doc.diffs| {
      MissingIsLate(core, roles[id], d.v);
    }
    hide PassedOver, Missing, Save, LateDiffs, HandleDiff;
  }

  // ---- Accepted diffs

  /** An accepted readable diff: if its updates run to their end and it has a request id, its sender is sent the
      confirmation alone and everyone else the diff alone, shown as their rights allow; otherwise nobody is sent
      anything. */
  lemma ReadableDiffIsShown<N>(cfg: Config<N>, core: Core<N>, order: seq<nat>, roles: map<nat, Role>, id: nat, d: Diff)
    requires cfg.saveInterval > 0 && id in roles && !core.doc.e2ee && d.v == core.doc.version
    requires !PassedOver(cfg, core.doc, roles[id], d) && StepsApply(cfg, core, d)
    ensures var f := HandleDiff(cfg, core, order, roles, id, d);
      && (f.ok <==> d.rid.Some? && UpdatesFit(core.doc, d, roles[id]))
      && (!f.ok ==> Silent(roles, f.mail))
      && (f.ok ==>
            && f.mail.Keys == roles.Keys && f.mail[id] == [ConfirmDiff(d.rid.value)]
            && forall k :: k in roles && k != id ==>
                 && |f.mail[k]| == 1 && f.mail[k][0].DiffMsg?
                 && Shows(roles[k], d, f.mail[k][0].d, PlainComments(f.core.doc.comments)))
  {
    DiscardedIsPassedOver(cfg, core, roles[id], d);
    UpdatesFitTheLogged(cfg, core, d, roles[id]);
    var f := HandleDiff(cfg, core, order, roles, id, d);
    forall k | k in roles
      ensures Shows(roles[k], d, Sanitize(d, roles[k], PlainComments(f.core.doc.comments)),
                    PlainComments(f.core.doc.comments))
    {
      SanitizeShows(d, roles[k], PlainComments(f.core.doc.comments));
    }
    hide PassedOver, Discarded, Missing, Save, ApplySidecars, UpdatesFit, Shows, Sanitize, ApplySteps, Log;
  }

  /** An accepted encrypted diff goes to everyone else as it came and is confirmed to a sender with a request id; before
      that, the first participant with `write` is asked for a snapshot when the version has come to a multiple of the
      interval. */
  lemma SealedDiffIsRelayed<N>(cfg: Config<N>, core: Core<N>, order: seq<nat>, roles: map<nat, Role>, id: nat, d: Diff)
    requires cfg.saveInterval > 0 && id in roles && core.doc.e2ee && d.v == core.doc.version
    requires !PassedOver(cfg, core.doc, roles[id], d)
    requires d.salt.Some? && d.salt == core.doc.salt && d.ep.Some?
    ensures var f := HandleDiff(cfg, core, order, roles, id, d);
      var n := core.doc.version + 1;
      && f.ok && f.mail.Keys == roles.Keys
      && forall k :: k in roles ==>
           f.mail[k] == (if n % cfg.saveInterval == 0 && FirstWriter(order, roles) == Some(k)
                         then [RequestSnapshot(n)] else [])
                      + (if k != id then [DiffMsg(d)] else if d.rid.Some? then [ConfirmDiff(d.rid.value)] else [])
  {
    DiscardedIsPassedOver(cfg, core, roles[id], d);
    hide PassedOver, Discarded, Missing, Save, FirstWriter, Last, AcceptPlain;
  }

  /** Without a participant that has `write` nobody is asked. */
  lemma {:induction false} NoWriterIsAsked(order: seq<nat>, roles: map<nat, Role>)
    requires forall i :: 0 <= i < |order| ==> !Writes(order, roles, i)
    ensures FirstWriter(order, roles) == None
  {
    if order != [] {
      assert !Writes(order, roles, 0);
      assert forall i :: 0 <= i < |order[1..]| ==> Writes(order[1..], roles, i) == Writes(order, roles, i + 1);
      NoWriterIsAsked(order[1..], roles);
    }
  }

  // ---- Questions for the version

  /** The answer to a question: a confirmation; what was accepted since and a confirmation; or a refetch. */
  lemma QuestionIsAnswered<N>(cfg: Config<N>, core: Core<N>, roles: map<nat, Role>, id: nat, v: Option<int>,
                              offline: bool)
    requires id in roles
    ensures var f := CheckVersion(cfg, core, roles, id, v, offline);
      && f.mail.Keys == roles.Keys && (f.ok <==> v.Some?)
      && (v.None? ==> f.core == core && Silent(roles, f.mail))
      && (v.Some? ==> OnlyTo(roles, f.mail, id, f.mail[id]))
      && (v.Some? ==>
            var n := core.doc.version;
            if v.value == n then f.core == core && f.mail[id] == [ConfirmVersion(n)]
            else if v.value < n <= v.value + |core.doc.diffs| && !offline then
              && f.core == core && |f.mail[id]| == n - v.value + 1 && f.mail[id][n - v.value] == ConfirmVersion(n)
              && LateDiffs(core, roles[id], v.value, f.mail[id][..n - v.value])
            else f.mail[id] == [Refetch])
  {
    if v.Some? && v.value < core.doc.version <= v.value + |core.doc.diffs| && !offline {
      MissingIsLate(core, roles[id], v.value);
      WithConfirmation(core, roles[id], v.value);
    }
    hide Missing, Save, LateDiffs;
  }

  lemma WithConfirmation<N>(core: Core<N>, role: Role, v: int)
    requires v < core.doc.version <= v + |core.doc.diffs|
    ensures var behind := core.doc.version - v;
      var msgs := Missing(core.doc.diffs, behind, role, PlainComments(core.doc.comments));
      var mail := msgs + [ConfirmVersion(core.doc.version)];
      |msgs| == behind && mail[..behind] == msgs && mail[behind] == ConfirmVersion(core.doc.version)
  {
    hide Sanitize;
  }

  /** Anything else a frame may bring: a diff from someone who may not change the document, and whatever is neither a
      diff nor a question, changes nothing and is not answered. */
  lemma OtherFramesAreSilent<N>(cfg: Config<N>, core: Core<N>, order: seq<nat>, roles: map<nat, Role>, id: nat,
                                verdict: Verdict<Up>)
    requires cfg.saveInterval > 0 && id in roles
    requires match verdict
      case Handled(_, UpDiff(_)) => roles[id].rights == Read || roles[id].rights == ReadWithoutComments
      case Handled(_, UpCheck(_, _)) => false
      case Rejected(_, UpDiff(_)) => false
      case _ => true
    ensures var f := Dispatch(cfg, core, order, roles, id, verdict); f.core == core && f.ok && Silent(roles, f.mail)
  {
    hide HandleDiff, CheckVersion, Reject;
  }

  /** Diffs from all others, and all questions, get to their handlers. */
  lemma HandledFramesAreHandled<N>(cfg: Config<N>, core: Core<N>, order: seq<nat>, roles: map<nat, Role>, id: nat,
                                   c: int, d: Diff, v: Option<int>, offline: bool)
    requires cfg.saveInterval > 0 && id in roles
    ensures roles[id].rights != Read && roles[id].rights != ReadWithoutComments ==>
      Dispatch(cfg, core, order, roles, id, Handled(c, UpDiff(d))) == HandleDiff(cfg, core, order, roles, id, d)
    ensures Dispatch(cfg, core, order, roles, id, Handled(c, UpCheck(v, offline)))
         == CheckVersion(cfg, core, roles, id, v, offline)
  {
    hide HandleDiff, CheckVersion;
  }

  // ---- Joining and leaving

  ghost predicate Communicates(role: Role) {
    role.rights == Read || role.rights == Write || role.rights == CommentRight || role.rights == WriteTracked
  }

  ghost function News(roles: map<nat, Role>, k: nat): seq<Msg>
    requires k in roles
  {
    if Communicates(roles[k]) then [Connections] else []
  }

  /** Those of the participants who may communicate are sent the list. */
  lemma ListIs(roles: map<nat, Role>, k: nat)
    requires k in roles
    ensures ParticipantList(roles).Keys == roles.Keys && ParticipantList(roles)[k] == News(roles, k)
  {
  }

  lemma CheckedIsForOne<N>(cfg: Config<N>, core: Core<N>, roles: map<nat, Role>, id: nat, v: Option<int>, k: nat)
    requires id in roles && k in roles
    ensures var f := CheckVersion(cfg, core, roles, id, v, false);
      f.mail.Keys == roles.Keys && (f.ok <==> v.Some?) && (k != id ==> f.mail[k] == [])
  {
    QuestionIsAnswered(cfg, core, roles, id, v, false);
    hide CheckVersion, LateDiffs;
  }

  /** A new participant is told that it has subscribed, its id and its rights and what its version calls for; one that
      has connected again only that and its rights. Then, unless the answer has raised, everyone who may communicate is
      sent the list if the newcomer may. */
  lemma GreetingIs<N>(cfg: Config<N>, core: Core<N>, roles: map<nat, Role>, id: nat, connection: int, v: Option<int>,
                      k: nat)
    requires id in roles && k in roles
    ensures var f := Greet(cfg, core, roles, id, connection, v);
      var checked := CheckVersion(cfg, core, roles, id, v, false);
      && f.core == (if connection < 1 then checked.core else core)
      && (f.ok <==> connection >= 1 || v.Some?)
      && f.mail.Keys == roles.Keys
      && f.mail[k] ==
           (if k != id then []
            else if connection < 1 then [Subscribed, SessionInfo(id, roles[id].rights)] + checked.mail[id]
            else [Subscribed, AccessRight(roles[id].rights)])
           + (if f.ok && Communicates(roles[id]) then News(roles, k) else [])
  {
    CheckedIsForOne(cfg, core, roles, id, v, k);
    ListIs(roles, k);
    assert Communicates(roles[id]) <==> roles[id].rights in CAN_COMMUNICATE;
    hide CheckVersion, ParticipantList, News, Communicates;
  }
}
