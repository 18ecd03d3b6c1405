/** The comment map, the two implementations that fold updates into it, and the per-recipient filter. */
module Comments {
  import opened Prelude
  import opened Access

  /** A JSON value. A number has its amount, the same text for equal numbers, and a list or dictionary its content, the
      same for equal ones; `shown` is what `str()` makes of it, which tells 5 from 5.0. */
  datatype Json =
    | Null | Bool(b: bool) | Num(amount: string, shown: string) | Str(s: string)
    | Compound(content: string, shown: string)

  /** What can be a key: neither a list nor a dictionary. */
  type Id = j: Json | !j.Compound? witness Null

  /** Python's `str()`. */
  function PyStr(j: Json): string {
    match j
    case Null => "None"
    case Bool(b) => if b then "True" else "False"
    case Num(_, shown) => shown
    case Str(s) => s
    case Compound(_, shown) => shown
  }

  /** What stands for a value where Python compares with `==` or looks up a key: `True` is `1` and `False` is `0`. */
  function Canon(j: Json): Json {
    match j
    case Bool(b) => Num(if b then "1" else "0", "")
    case Num(amount, _) => Num(amount, "")
    case Compound(content, _) => Compound(content, "")
    case _ => j
  }

  /** Python's `==`. */
  predicate Same(a: Json, b: Json) {
    Canon(a) == Canon(b)
  }

  /** What `str()` and `==` make of the values that are not text: `True` is written out and equal to `1`. */
  lemma ValuesAre(s: string, amount: string, shown: string, other: string)
    ensures PyStr(Str(s)) == s && PyStr(Null) == "None" && PyStr(Bool(true)) == "True" && PyStr(Bool(false)) == "False"
    ensures PyStr(Num(amount, shown)) == shown && PyStr(Compound(amount, shown)) == shown
    ensures Same(Num(amount, shown), Num(amount, other)) && Same(Compound(amount, shown), Compound(amount, other))
    ensures Same(Bool(true), Num("1", shown)) && Same(Bool(false), Num("0", shown)) && !Same(Bool(true), Bool(false))
    ensures Same(Str(s), Str(amount)) <==> s == amount
    ensures Same(Num(s, shown), Num(amount, other)) <==> s == amount
    ensures !Same(Str(s), Num(amount, shown)) && !Same(Str(s), Null) && !Same(Num(amount, shown), Null)
    ensures !Same(Compound(s, shown), Str(amount)) && !Same(Compound(s, shown), Num(amount, other))
  {
  }

  datatype Answer = Answer(id: Json, user: Json, username: Json, date: Json, answer: Json)

  datatype Comment = Comment(user: Json, username: Json, assignedUser: Json, assignedUsername: Json, date: Json,
                             comment: Json, isMajor: Json, resolved: Json, isGlobal: Json,
                             answers: Option<seq<Answer>>)

  datatype Kind = Create | Delete | Change | AddAnswer | DeleteAnswer | ChangeAnswer | OtherKind | NoKind

  /** One entry of a diff's `cu` list; a missing key is `None`. `answerUsers` are the users of an `answers` list. */
  datatype Update = Update(id: Option<Id>, kind: Kind, user: Option<Json>, username: Option<Json>,
                           assignedUser: Option<Json>, assignedUsername: Option<Json>, date: Option<Json>,
                           comment: Option<Json>, isMajor: Option<Json>, resolved: Option<Json>,
                           isGlobal: Option<Json>, answerId: Option<Json>, answer: Option<Json>,
                           answerUsers: seq<Json>)

  /** Keyed by what `Canon` makes of the ids. */
  type CommentMap = map<Json, Comment>

  /** The map so far, and whether the fold is still running (false: a Python exception escaped). */
  datatype Folded = Folded(comments: CommentMap, ok: bool)

  function OrNull(j: Option<Json>): Json {
    if j.Some? then j.value else Null
  }

  // ---- Python: remove from the list that is being iterated

  /** Python's `==` for answers, which are dictionaries with the same keys. */
  predicate SameAnswer(a: Answer, b: Answer) {
    && Same(a.id, b.id) && Same(a.user, b.user) && Same(a.username, b.username) && Same(a.date, b.date)
    && Same(a.answer, b.answer)
  }

  /** `list.remove(x)`: drop the first entry equal to `x`. */
  function RemoveFirst(s: seq<Answer>, x: Answer): seq<Answer> {
    if s == [] then []
    else if SameAnswer(s[0], x) then s[1..]
    else [s[0]] + RemoveFirst(s[1..], x)
  }

  /** The iteration from index `i` on: removing shortens the list under the iterator, so the next entry is skipped. */
  function DeleteWhileIterating(s: seq<Answer>, i: nat, id: Json): seq<Answer>
    decreases |s| - i
  {
    if i >= |s| then s
    else if Same(s[i].id, id) then
      RemoveShortens(s, i);
      DeleteWhileIterating(RemoveFirst(s, s[i]), i + 1, id)
    else DeleteWhileIterating(s, i + 1, id)
  }

  function Without(s: seq<Answer>, id: Json): seq<Answer> {
    if s == [] then [] else (if Same(s[0].id, id) then [] else [s[0]]) + Without(s[1..], id)
  }

  lemma {:induction false} RemoveShortens(s: seq<Answer>, i: nat)
    requires i < |s|
    ensures |RemoveFirst(s, s[i])| == |s| - 1
    decreases i
  {
    if !SameAnswer(s[0], s[i]) {
      RemoveShortens(s[1..], i - 1);
    }
  }

  /** The first entry equal to `s[i]` is at most at `i`, and removing it closes the gap there. */
  lemma {:induction false} RemoveFirstAt(s: seq<Answer>, i: nat) returns (j: nat, rest: seq<Answer>)
    requires i < |s|
    ensures j <= i && SameAnswer(s[j], s[i]) && forall m :: 0 <= m < j ==> !SameAnswer(s[m], s[i])
    ensures rest == RemoveFirst(s, s[i]) && |rest| == |s| - 1
    ensures forall m :: 0 <= m < |rest| ==> rest[m] == s[if m < j then m else m + 1]
    decreases |s|
  {
    if SameAnswer(s[0], s[i]) {
      j, rest := 0, s[1..];
    } else {
      var k, tail := RemoveFirstAt(s[1..], i - 1);
      j, rest := k + 1, [s[0]] + tail;
    }
  }

  predicate MatchBelow(s: seq<Answer>, i: int, id: Json) {
    exists m :: 0 <= m < i && m < |s| && Same(s[m].id, id)
  }

  predicate AdjacentFrom(s: seq<Answer>, i: int, id: Json) {
    exists m :: i <= m < |s| - 1 && 0 <= m && Same(s[m].id, id) && Same(s[m + 1].id, id)
  }

  predicate AdjacentMatches(s: seq<Answer>, id: Json) {
    AdjacentFrom(s, 0, id)
  }

  lemma {:induction false} WithoutHasNoMatch(s: seq<Answer>, id: Json)
    ensures !MatchBelow(Without(s, id), |s|, id)
    ensures |Without(s, id)| <= |s|
  {
    if s != [] {
      WithoutHasNoMatch(s[1..], id);
    }
  }

  lemma {:induction false} WithoutOfNone(s: seq<Answer>, id: Json)
    requires forall m :: 0 <= m < |s| ==> !Same(s[m].id, id)
    ensures Without(s, id) == s
  {
    if s != [] {
      WithoutOfNone(s[1..], id);
    }
  }

  lemma {:induction false} WithoutDropsMatch(s: seq<Answer>, i: nat, id: Json)
    requires i < |s| && Same(s[i].id, id)
    ensures Without(s, id) == Without(s[..i] + s[i + 1..], id)
  {
    hide Same;
    if i == 0 {
      assert s[..0] + s[1..] == s[1..];
    } else {
      WithoutDropsMatch(s[1..], i - 1, id);
      var t := s[..i] + s[i + 1..];
      assert t[0] == s[0] && t[1..] == s[1..][..i - 1] + s[1..][i..];
    }
  }

  lemma SameAnswersMatchAlike(a: Answer, b: Answer, id: Json)
    requires SameAnswer(a, b)
    ensures Same(a.id, id) <==> Same(b.id, id)
  {
  }

  /** Without adjacent matches nothing is ever skipped. */
  lemma {:induction false} NothingSkipped(s: seq<Answer>, i: nat, id: Json)
    requires !MatchBelow(s, i, id) && !AdjacentFrom(s, i, id)
    ensures DeleteWhileIterating(s, i, id) == Without(s, id)
    decreases |s| - i
  {
    hide Same, SameAnswer, Without;
    if i >= |s| {
      WithoutOfNone(s, id);
    } else if Same(s[i].id, id) {
      var j, rest := RemoveFirstAt(s, i);
      SameAnswersMatchAlike(s[j], s[i], id);
      assert j == i;
      assert rest == s[..i] + s[i + 1..];
      WithoutDropsMatch(s, i, id);
      NothingSkipped(rest, i + 1, id);
    } else {
      NothingSkipped(s, i + 1, id);
    }
  }

  lemma MatchMovesDown(s: seq<Answer>, i: nat, j: nat, m: nat, rest: seq<Answer>, id: Json)
    requires j <= i < |s| && m <= i + 1 && m < |s| && m != i
    requires Same(s[m].id, id) && Same(s[i].id, id) && SameAnswer(s[j], s[i])
    requires |rest| == |s| - 1 && forall q :: 0 <= q < |rest| ==> rest[q] == s[if q < j then q else q + 1]
    ensures MatchBelow(rest, i + 1, id)
  {
    var at := if m < j then m else if m > j then m - 1 else i - 1;
    assert Same(rest[at].id, id);
  }

  /** A match the iterator has passed survives to the end, itself or an equal copy further on. */
  lemma {:induction false} SkippedStays(s: seq<Answer>, i: nat, id: Json)
    requires MatchBelow(s, i, id)
    ensures MatchBelow(DeleteWhileIterating(s, i, id), |s|, id)
    decreases |s| - i
  {
    var m: nat :| m < i && m < |s| && Same(s[m].id, id);
    if i >= |s| {
    } else if Same(s[i].id, id) {
      var j, rest := RemoveFirstAt(s, i);
      MatchMovesDown(s, i, j, m, rest, id);
      SkippedStays(rest, i + 1, id);
    } else {
      SkippedStays(s, i + 1, id);
    }
  }

  lemma {:induction false} AdjacentIsSkipped(s: seq<Answer>, i: nat, id: Json)
    requires AdjacentFrom(s, i, id)
    ensures MatchBelow(DeleteWhileIterating(s, i, id), |s|, id)
    decreases |s| - i
  {
    var p: nat :| i <= p < |s| - 1 && Same(s[p].id, id) && Same(s[p + 1].id, id);
    if Same(s[i].id, id) {
      var j, rest := RemoveFirstAt(s, i);
      if p <= i + 1 {
        MatchMovesDown(s, i, j, i + 1, rest, id);
        SkippedStays(rest, i + 1, id);
      } else {
        assert Same(rest[p - 1].id, id) && Same(rest[p - 1 + 1].id, id);
        AdjacentIsSkipped(rest, i + 1, id);
      }
    } else {
      AdjacentIsSkipped(s, i + 1, id);
    }
  }

  /** Removing while iterating deletes every matching answer exactly when no two matching ones are neighbours. */
  lemma DeletesAllIff(s: seq<Answer>, id: Json)
    ensures DeleteWhileIterating(s, 0, id) == Without(s, id) <==> !AdjacentMatches(s, id)
  {
    if AdjacentMatches(s, id) {
      AdjacentIsSkipped(s, 0, id);
      WithoutHasNoMatch(s, id);
    } else {
      NothingSkipped(s, 0, id);
    }
  }

  lemma TwinAnswerSurvives(a: Answer)
    ensures DeleteWhileIterating([a, a], 0, a.id) == [a] != Without([a, a], a.id)
  {
    assert RemoveFirst([a, a], a) == [a];
    assert DeleteWhileIterating([a], 1, a.id) == [a];
    assert Without([a, a], a.id) == Without([a], a.id) == [];
  }

  function SetAnswer(s: seq<Answer>, id: Json, answer: Json): seq<Answer> {
    seq(|s|, i requires 0 <= i < |s| => if Same(s[i].id, id) then s[i].(answer := answer) else s[i])
  }

  // ---- The Python consumer's fold

  function PyCreate(u: Update): Option<Comment> {
    if u.user.None? || u.username.None? || u.assignedUser.None? || u.assignedUsername.None? || u.date.None?
       || u.comment.None? || u.isMajor.None? || u.resolved.None? then None
    else Some(Comment(u.user.value, u.username.value, u.assignedUser.value, u.assignedUsername.value, u.date.value,
                      u.comment.value, u.isMajor.value, u.resolved.value,
                      if u.isGlobal.Some? then u.isGlobal.value else Bool(false), None))
  }

  function PyChange(e: Comment, u: Update): Comment
    requires u.comment.Some?
  {
    var e1 := e.(comment := u.comment.value);
    var e2 := if u.isMajor.Some? then e1.(isMajor := u.isMajor.value) else e1;
    var e3 := if u.assignedUser.Some? && u.assignedUsername.Some?
              then e2.(assignedUser := u.assignedUser.value, assignedUsername := u.assignedUsername.value) else e2;
    if u.resolved.Some? then e3.(resolved := u.resolved.value) else e3
  }

  /** One update. A missing key or an unknown comment id raises; `add_answer` has then already set the empty list. */
  function PyStep(m: CommentMap, u: Update): Folded {
    if u.id.None? then Folded(m, true)
    else
      var id := Canon(u.id.value);
      match u.kind
      case NoKind => Folded(m, false)
      case OtherKind => Folded(m, true)
      case Create =>
        var e := PyCreate(u);
        if e.None? then Folded(m, false) else Folded(m[id := e.value], true)
      case Delete =>
        if id !in m then Folded(m, false) else Folded(m - {id}, true)
      case Change =>
        if u.comment.None? || id !in m then Folded(m, false) else Folded(m[id := PyChange(m[id], u)], true)
      case AddAnswer =>
        if id !in m then Folded(m, false)
        else
          var answers := if m[id].answers.Some? then m[id].answers.value else [];
          if u.answerId.None? || u.user.None? || u.username.None? || u.date.None? || u.answer.None?
          then Folded(m[id := m[id].(answers := Some(answers))], false)
          else Folded(m[id := m[id].(answers := Some(answers + [Answer(u.answerId.value, u.user.value,
                        u.username.value, u.date.value, u.answer.value)]))], true)
      case DeleteAnswer =>
        if u.answerId.None? || id !in m || m[id].answers.None? then Folded(m, false)
        else
          Folded(m[id := m[id].(answers := Some(DeleteWhileIterating(m[id].answers.value, 0, u.answerId.value)))], true)
      case ChangeAnswer =>
        if u.answerId.None? || id !in m || m[id].answers.None? then Folded(m, false)
        else
          var answers := m[id].answers.value;
          if u.answer.None? then Folded(m, !MatchBelow(answers, |answers|, u.answerId.value))
          else Folded(m[id := m[id].(answers := Some(SetAnswer(answers, u.answerId.value, u.answer.value)))], true)
  }

  function PyFold(m: CommentMap, us: seq<Update>): Folded
    decreases |us|
  {
    if us == [] then Folded(m, true)
    else
      var next := PyStep(m, us[0]);
      if next.ok then PyFold(next.comments, us[1..]) else next
  }

  // ---- When the Python fold completes

  /** The keys an entry must have, and what must exist for it, read off the branches. */
  predicate EntryFits(m: CommentMap, u: Update) {
    u.id.None? ||
    var id := Canon(u.id.value);
    match u.kind
    case NoKind => false
    case OtherKind => true
    case Create =>
      u.user.Some? && u.username.Some? && u.assignedUser.Some? && u.assignedUsername.Some? && u.date.Some?
      && u.comment.Some? && u.isMajor.Some? && u.resolved.Some?
    case Delete => id in m
    case Change => id in m && u.comment.Some?
    case AddAnswer =>
      id in m && u.answerId.Some? && u.user.Some? && u.username.Some? && u.date.Some? && u.answer.Some?
    case DeleteAnswer => id in m && m[id].answers.Some? && u.answerId.Some?
    case ChangeAnswer =>
      id in m && m[id].answers.Some? && u.answerId.Some?
      && (u.answer.Some? || !MatchBelow(m[id].answers.value, |m[id].answers.value|, u.answerId.value))
  }

  /** Every entry fits what the ones before it have left. */
  predicate BatchFits(m: CommentMap, us: seq<Update>) {
    forall i :: 0 <= i < |us| ==> EntryFits(PyFold(m, us[..i]).comments, us[i])
  }

  lemma StepOkIff(m: CommentMap, u: Update)
    ensures PyStep(m, u).ok <==> EntryFits(m, u)
  {
    hide DeleteWhileIterating, SetAnswer, MatchBelow;
  }

  lemma FoldOfPrefix(m: CommentMap, us: seq<Update>, i: nat)
    requires 0 < i <= |us|
    ensures PyFold(m, us[..i]) == if PyStep(m, us[0]).ok then PyFold(PyStep(m, us[0]).comments, us[1..][..i - 1])
                                  else PyStep(m, us[0])
  {
    assert us[..i][0] == us[0] && us[..i][1..] == us[1..][..i - 1];
    hide PyStep;
  }

  /** The fold runs to its end exactly when every entry fits at its turn. */
  lemma {:induction false} FoldOkIff(m: CommentMap, us: seq<Update>)
    ensures PyFold(m, us).ok <==> BatchFits(m, us)
    decreases |us|
  {
    hide PyStep, EntryFits;
    if us != [] {
      StepOkIff(m, us[0]);
      assert us[..0] == [] && PyFold(m, us[..0]).comments == m;
      if PyStep(m, us[0]).ok {
        var m' := PyStep(m, us[0]).comments;
        FoldOkIff(m', us[1..]);
        forall i | 0 < i < |us| ensures PyFold(m, us[..i]) == PyFold(m', us[1..][..i - 1]) && us[i] == us[1..][i - 1] {
          FoldOfPrefix(m, us, i);
        }
        if BatchFits(m, us) {
          forall i | 0 <= i < |us[1..]| ensures EntryFits(PyFold(m', us[1..][..i]).comments, us[1..][i]) {
            assert EntryFits(PyFold(m, us[..i + 1]).comments, us[i + 1]);
          }
        }
        if BatchFits(m', us[1..]) {
          forall i | 0 <= i < |us| ensures EntryFits(PyFold(m, us[..i]).comments, us[i]) {
            if i > 0 {
              assert EntryFits(PyFold(m', us[1..][..i - 1]).comments, us[1..][i - 1]);
            }
          }
        }
      } else {
        assert !EntryFits(PyFold(m, us[..0]).comments, us[0]);
      }
    }
  }

  // ---- The native server's fold: total, and only ids that are strings count

  function NativeCreate(u: Update): Comment {
    Comment(OrNull(u.user), OrNull(u.username), OrNull(u.assignedUser), OrNull(u.assignedUsername), OrNull(u.date),
            OrNull(u.comment), OrNull(u.isMajor), OrNull(u.resolved),
            if u.isGlobal.Some? then u.isGlobal.value else Bool(false), None)
  }

  function NativeChange(e: Comment, u: Update): Comment {
    var e1 := if u.comment.Some? then e.(comment := u.comment.value) else e;
    var e2 := if u.isMajor.Some? then e1.(isMajor := u.isMajor.value) else e1;
    var e3 := if u.assignedUser.Some?
              then e2.(assignedUser := u.assignedUser.value, assignedUsername := OrNull(u.assignedUsername)) else e2;
    if u.resolved.Some? then e3.(resolved := u.resolved.value) else e3
  }

  function NativeStep(m: CommentMap, u: Update): CommentMap {
    if u.id.None? || !u.id.value.Str? then m
    else
      var id := u.id.value;
      match u.kind
      case NoKind => m
      case OtherKind => m
      case Create => m[id := NativeCreate(u)]
      case Delete => m - {id}
      case Change => if id !in m then m else m[id := NativeChange(m[id], u)]
      case AddAnswer =>
        if id !in m then m
        else
          var answers := if m[id].answers.Some? then m[id].answers.value else [];
          m[id := m[id].(answers := Some(answers + [Answer(OrNull(u.answerId), OrNull(u.user), OrNull(u.username),
                                                           OrNull(u.date), OrNull(u.answer))]))]
      case DeleteAnswer =>
        if id !in m || m[id].answers.None? || u.answerId.None? || !u.answerId.value.Str? then m
        else m[id := m[id].(answers := Some(Without(m[id].answers.value, u.answerId.value)))]
      case ChangeAnswer =>
        if id !in m || m[id].answers.None? || u.answerId.None? || !u.answerId.value.Str? || u.answer.None? then m
        else m[id := m[id].(answers := Some(SetAnswer(m[id].answers.value, u.answerId.value, u.answer.value)))]
  }

  function NativeFold(m: CommentMap, us: seq<Update>): CommentMap
    decreases |us|
  {
    if us == [] then m else NativeFold(NativeStep(m, us[0]), us[1..])
  }

  // ---- When they agree

  /** An entry for a comment that now is `e` changes it. Entries that raise change nothing, but for `add_answer`, which
      has set the empty list by then. */
  predicate Rewrites(e: Comment, u: Update) {
    match u.kind
    case Create => PyCreate(u).Some? && PyCreate(u) != Some(e)
    case Delete => true
    case Change =>
      u.comment.Some? &&
      (|| u.comment != Some(e.comment)
       || (u.isMajor.Some? && u.isMajor != Some(e.isMajor))
       || (u.assignedUser.Some? && u.assignedUsername.Some?
           && (u.assignedUser != Some(e.assignedUser) || u.assignedUsername != Some(e.assignedUsername)))
       || (u.resolved.Some? && u.resolved != Some(e.resolved)))
    case AddAnswer =>
      e.answers.None?
      || (u.answerId.Some? && u.user.Some? && u.username.Some? && u.date.Some? && u.answer.Some?)
    case DeleteAnswer =>
      u.answerId.Some? && e.answers.Some? && MatchBelow(e.answers.value, |e.answers.value|, u.answerId.value)
    case ChangeAnswer =>
      u.answerId.Some? && u.answer.Some? && e.answers.Some?
      && exists i :: 0 <= i < |e.answers.value| && Same(e.answers.value[i].id, u.answerId.value)
                     && e.answers.value[i].answer != u.answer.value
    case _ => false
  }

  /** With an id that is not text Python does something only the native server does not, unless it does nothing. */
  predicate Idle(m: CommentMap, u: Update)
    requires u.id.Some?
  {
    u.kind in {NoKind, OtherKind} || (Canon(u.id.value) in m && !Rewrites(m[Canon(u.id.value)], u))
  }

  /** What an update that Python accepts must satisfy for the native server to do the same. */
  predicate Portable(m: CommentMap, u: Update) {
    if u.id.None? then true
    else if !u.id.value.Str? then Idle(m, u)
    else if u.id.value !in m then true
    else
      var e := m[u.id.value];
      match u.kind
      case Change =>
        u.assignedUser.Some? && u.assignedUsername.None? ==>
          e.assignedUser == u.assignedUser.value && e.assignedUsername == Null
      case DeleteAnswer =>
        u.answerId.Some? && e.answers.Some? ==>
          var s := e.answers.value;
          if u.answerId.value.Str? then !AdjacentMatches(s, u.answerId.value)
          else !MatchBelow(s, |s|, u.answerId.value)
      case ChangeAnswer =>
        u.answerId.Some? && u.answer.Some? && e.answers.Some? && !u.answerId.value.Str? ==>
          forall i :: 0 <= i < |e.answers.value| && Same(e.answers.value[i].id, u.answerId.value) ==>
            e.answers.value[i].answer == u.answer.value
      case _ => true
  }

  lemma {:induction false} SweepWithoutMatch(s: seq<Answer>, i: nat, id: Json)
    requires !MatchBelow(s, |s|, id)
    ensures DeleteWhileIterating(s, i, id) == s
    decreases |s| - i
  {
    if i < |s| {
      SweepWithoutMatch(s, i + 1, id);
    }
  }

  lemma {:induction false} SweepWithMatch(s: seq<Answer>, i: nat, id: Json)
    requires exists m :: i <= m < |s| && Same(s[m].id, id)
    ensures DeleteWhileIterating(s, i, id) != s
    decreases |s| - i
  {
    if Same(s[i].id, id) {
      RemoveShortens(s, i);
      SweepShortens(RemoveFirst(s, s[i]), i + 1, id);
    } else {
      SweepWithMatch(s, i + 1, id);
    }
  }

  lemma {:induction false} SweepShortens(s: seq<Answer>, i: nat, id: Json)
    ensures |DeleteWhileIterating(s, i, id)| <= |s|
    decreases |s| - i
  {
    if i < |s| {
      if Same(s[i].id, id) {
        RemoveShortens(s, i);
        SweepShortens(RemoveFirst(s, s[i]), i + 1, id);
      } else {
        SweepShortens(s, i + 1, id);
      }
    }
  }

  lemma SweepChangesIff(s: seq<Answer>, id: Json)
    ensures DeleteWhileIterating(s, 0, id) == s <==> !MatchBelow(s, |s|, id)
  {
    if MatchBelow(s, |s|, id) {
      SweepWithMatch(s, 0, id);
    } else {
      SweepWithoutMatch(s, 0, id);
    }
  }

  lemma DeleteAnswerAgrees(s: seq<Answer>, id: Json)
    ensures id.Str? ==> (DeleteWhileIterating(s, 0, id) == Without(s, id) <==> !AdjacentMatches(s, id))
    ensures !id.Str? ==> (DeleteWhileIterating(s, 0, id) == s <==> !MatchBelow(s, |s|, id))
  {
    DeletesAllIff(s, id);
    SweepChangesIff(s, id);
  }

  lemma SetAnswerIsNoChange(s: seq<Answer>, id: Json, answer: Json)
    ensures SetAnswer(s, id, answer) == s
       <==> forall i :: 0 <= i < |s| && Same(s[i].id, id) ==> s[i].answer == answer
  {
    if SetAnswer(s, id, answer) == s {
      forall i | 0 <= i < |s| && Same(s[i].id, id) ensures s[i].answer == answer {
        assert SetAnswer(s, id, answer)[i].answer == answer;
      }
    }
  }

  lemma UpdateEntryEqualIff(m: CommentMap, id: Json, a: Comment, b: Comment)
    ensures m[id := a] == m[id := b] <==> a == b
    ensures id in m ==> (m[id := a] == m <==> a == m[id])
  {
    assert m[id := a][id] == a && m[id := b][id] == b;
    if id in m && a == m[id] {
      assert m[id := a] == m;
    }
  }

  ghost predicate SameAt(a: CommentMap, b: CommentMap, id: Json) {
    (id in a <==> id in b) && (id in a ==> a[id] == b[id])
  }

  predicate Names(u: Update, id: Json) {
    u.id.Some? && Canon(u.id.value) == id
  }

  /** One entry changes a comment exactly when it names it and rewrites it. */
  lemma StepKeepsIff(m: CommentMap, u: Update, id: Json)
    requires id in m
    ensures SameAt(m, PyStep(m, u).comments, id) <==> !(Names(u, id) && Rewrites(m[id], u))
  {
    if Names(u, id) {
      var e := m[id];
      match u.kind
      case DeleteAnswer =>
        if u.answerId.Some? && e.answers.Some? {
          SweepChangesIff(e.answers.value, u.answerId.value);
        }
      case ChangeAnswer =>
        if u.answerId.Some? && u.answer.Some? && e.answers.Some? {
          SetAnswerIsNoChange(e.answers.value, u.answerId.value, u.answer.value);
        }
      case _ =>
    }
    hide DeleteWhileIterating, SetAnswer;
  }

  /** An update that Python carries out has the same effect on the native server exactly when it is portable: ids are
      strings or the update is idle, the assignee fields come in pairs, and no two neighbouring answers share a deleted
      id. */
  lemma StepsAgreeIff(m: CommentMap, u: Update)
    requires PyStep(m, u).ok
    ensures PyStep(m, u).comments == NativeStep(m, u) <==> Portable(m, u)
  {
    if u.id.Some? && !u.id.value.Str? {
      IdleIff(m, u);
    } else if u.id.Some? && u.id.value in m {
      var id := u.id.value;
      var e := m[id];
      match u.kind
      case Change =>
        UpdateEntryEqualIff(m, id, PyChange(e, u), NativeChange(e, u));
      case DeleteAnswer =>
        var s := e.answers.value;
        var py := e.(answers := Some(DeleteWhileIterating(s, 0, u.answerId.value)));
        DeleteAnswerAgrees(s, u.answerId.value);
        UpdateEntryEqualIff(m, id, py, e.(answers := Some(Without(s, u.answerId.value))));
      case ChangeAnswer =>
        ChangeAnswerAgreesIff(m, u);
      case _ =>
    }
  }

  lemma IdleIff(m: CommentMap, u: Update)
    requires PyStep(m, u).ok && u.id.Some?
    ensures PyStep(m, u).comments == m <==> Idle(m, u)
  {
    var id := Canon(u.id.value);
    if id in m {
      StepKeepsIff(m, u, id);
      StepKeepsOthers(m, u, id);
    }
    hide DeleteWhileIterating, SetAnswer, MatchBelow, Rewrites;
  }

  lemma StepKeepsOthers(m: CommentMap, u: Update, id: Json)
    requires id in m && Names(u, id)
    ensures SameAt(m, PyStep(m, u).comments, id) ==> PyStep(m, u).comments == m
  {
    hide DeleteWhileIterating, SetAnswer, MatchBelow;
  }

  lemma ChangeAnswerAgreesIff(m: CommentMap, u: Update)
    requires PyStep(m, u).ok && u.kind == ChangeAnswer && u.id.Some? && u.id.value.Str? && u.id.value in m
    ensures PyStep(m, u).comments == NativeStep(m, u) <==> Portable(m, u)
  {
    var id := u.id.value;
    if u.answer.Some? {
      var s := m[id].answers.value;
      SetAnswerIsNoChange(s, u.answerId.value, u.answer.value);
      var py := m[id].(answers := Some(SetAnswer(s, u.answerId.value, u.answer.value)));
      UpdateEntryEqualIff(m, id, py, py);
    }
  }

  /** Every update of the batch is portable when its turn comes. */
  predicate PortableBatch(m: CommentMap, us: seq<Update>)
    decreases |us|
  {
    us == [] || (Portable(m, us[0]) && (PyStep(m, us[0]).ok ==> PortableBatch(PyStep(m, us[0]).comments, us[1..])))
  }

  /** On a batch that Python completes, portability of each update makes the two servers hold the same comments. */
  lemma {:induction false} FoldsAgree(m: CommentMap, us: seq<Update>)
    requires PyFold(m, us).ok && PortableBatch(m, us)
    ensures PyFold(m, us).comments == NativeFold(m, us)
    decreases |us|
  {
    if us != [] {
      StepsAgreeIff(m, us[0]);
      FoldsAgree(PyStep(m, us[0]).comments, us[1..]);
    }
  }

  /** A comment the batch does not name is untouched by either fold, even when Python stops half way. */
  lemma {:induction false} UnnamedUntouched(m: CommentMap, us: seq<Update>, id: Json)
    requires forall i :: 0 <= i < |us| ==> !Names(us[i], id)
    ensures SameAt(m, PyFold(m, us).comments, id)
    ensures SameAt(m, NativeFold(m, us), id)
    decreases |us|
  {
    if us != [] {
      assert !Names(us[0], id);
      var py, native := PyStep(m, us[0]), NativeStep(m, us[0]);
      assert SameAt(m, py.comments, id) && SameAt(m, native, id);
      UnnamedUntouched(native, us[1..], id);
      if py.ok {
        UnnamedUntouched(py.comments, us[1..], id);
      }
    }
  }

  // ---- The loops of the Python consumer

  method DeleteAnswerLoop(s: seq<Answer>, id: Json) returns (answers: seq<Answer>)
    ensures answers == DeleteWhileIterating(s, 0, id)
  {
    answers := s;
    var i := 0;
    while i < |answers|
      invariant DeleteWhileIterating(answers, i, id) == DeleteWhileIterating(s, 0, id)
      decreases |answers| - i
    {
      if Same(answers[i].id, id) {
        RemoveShortens(answers, i);
        answers := RemoveFirst(answers, answers[i]);
      }
      i := i + 1;
    }
  }

  /** `update_answer`: the new text is looked up at every match, and is missed only there. */
  method ChangeAnswerLoop(s: seq<Answer>, id: Json, answer: Option<Json>) returns (answers: seq<Answer>, ok: bool)
    ensures ok == (answer.Some? || !MatchBelow(s, |s|, id))
    ensures answers == if answer.Some? then SetAnswer(s, id, answer.value) else s
  {
    answers, ok := s, true;
    for i := 0 to |s|
      invariant |answers| == |s| && forall j :: i <= j < |s| ==> answers[j] == s[j]
      invariant answer.Some? ==> forall j :: 0 <= j < i ==> answers[j] == SetAnswer(s, id, answer.value)[j]
      invariant answer.None? ==> answers == s && !MatchBelow(s, i, id)
    {
      if Same(s[i].id, id) {
        if answer.None? {
          return s, false;
        }
        answers := answers[i := answers[i].(answer := answer.value)];
      }
    }
  }

  /** One update, with the assignments of `update_comments` in their order. */
  method UpdateOne(m: CommentMap, u: Update) returns (comments: CommentMap, ok: bool)
    ensures Folded(comments, ok) == PyStep(m, u)
  {
    comments, ok := m, true;
    if u.id.None? {
      return;
    }
    var id := Canon(u.id.value);
    match u.kind
    case NoKind =>
      ok := false;
    case OtherKind =>
    case Create =>
      if u.user.None? || u.username.None? || u.assignedUser.None? || u.assignedUsername.None? || u.date.None?
         || u.comment.None? || u.isMajor.None? || u.resolved.None? {
        return m, false;
      }
      var isGlobal := Bool(false);
      if u.isGlobal.Some? {
        isGlobal := u.isGlobal.value;
      }
      comments := m[id := Comment(u.user.value, u.username.value, u.assignedUser.value, u.assignedUsername.value,
                                  u.date.value, u.comment.value, u.isMajor.value, u.resolved.value, isGlobal, None)];
    case Delete =>
      if id !in m {
        return m, false;
      }
      comments := m - {id};
    case Change =>
      if u.comment.None? || id !in m {
        return m, false;
      }
      var e := m[id].(comment := u.comment.value);
      if u.isMajor.Some? {
        e := e.(isMajor := u.isMajor.value);
      }
      if u.assignedUser.Some? && u.assignedUsername.Some? {
        e := e.(assignedUser := u.assignedUser.value);
        e := e.(assignedUsername := u.assignedUsername.value);
      }
      if u.resolved.Some? {
        e := e.(resolved := u.resolved.value);
      }
      comments := m[id := e];
    case AddAnswer =>
      if id !in m {
        return m, false;
      }
      var e := m[id];
      if e.answers.None? {
        e := e.(answers := Some([]));
      }
      comments := m[id := e];
      if u.answerId.None? || u.user.None? || u.username.None? || u.date.None? || u.answer.None? {
        ok := false;
        return;
      }
      var answer := Answer(u.answerId.value, u.user.value, u.username.value, u.date.value, u.answer.value);
      comments := m[id := e.(answers := Some(e.answers.value + [answer]))];
    case DeleteAnswer =>
      if u.answerId.None? || id !in m || m[id].answers.None? {
        return m, false;
      }
      var answers := DeleteAnswerLoop(m[id].answers.value, u.answerId.value);
      comments := m[id := m[id].(answers := Some(answers))];
    case ChangeAnswer =>
      if u.answerId.None? || id !in m || m[id].answers.None? {
        return m, false;
      }
      var answers, fine := ChangeAnswerLoop(m[id].answers.value, u.answerId.value, u.answer);
      ok := fine;
      comments := m[id := m[id].(answers := Some(answers))];
      assert u.answer.None? ==> comments == m;
  }

  method UpdateComments(m: CommentMap, us: seq<Update>) returns (comments: CommentMap, ok: bool)
    ensures Folded(comments, ok) == PyFold(m, us)
  {
    hide PyStep;
    comments, ok := m, true;
    var i := 0;
    while i < |us|
      invariant 0 <= i <= |us|
      invariant ok && PyFold(m, us) == PyFold(comments, us[i..])
    {
      assert us[i..][0] == us[i] && us[i..][1..] == us[i + 1..];
      comments, ok := UpdateOne(comments, us[i]);
      if !ok {
        return;
      }
      i := i + 1;
    }
  }

  // ---- The loops of the native server

  lemma WithoutFrom(s: seq<Answer>, i: nat, id: Json)
    requires i < |s|
    ensures Without(s[i..], id) == (if Same(s[i].id, id) then [] else [s[i]]) + Without(s[i + 1..], id)
  {
    assert s[i..][0] == s[i] && s[i..][1..] == s[i + 1..];
  }

  method Retain(s: seq<Answer>, id: Option<Json>) returns (kept: seq<Answer>)
    ensures kept == if id.Some? && id.value.Str? then Without(s, id.value) else s
  {
    if id.None? || !id.value.Str? {
      return s;
    }
    kept := [];
    assert Without([], id.value) == [];
    hide Without;
    assert s[0..] == s && [] + Without(s, id.value) == Without(s, id.value);
    for i := 0 to |s|
      invariant Without(s, id.value) == kept + Without(s[i..], id.value)
    {
      WithoutFrom(s, i, id.value);
      ghost var rest := Without(s[i + 1..], id.value);
      if !Same(s[i].id, id.value) {
        assert kept + ([s[i]] + rest) == kept + [s[i]] + rest;
        kept := kept + [s[i]];
      } else {
        assert [] + rest == rest;
      }
    }
    assert s[|s|..] == [] && kept + [] == kept;
  }

  method NativeUpdateOne(m: CommentMap, u: Update) returns (comments: CommentMap)
    ensures comments == NativeStep(m, u)
  {
    comments := m;
    if u.id.None? || !u.id.value.Str? || u.kind == NoKind {
      return;
    }
    var id := u.id.value;
    if u.kind == Create {
      comments := m[id := NativeCreate(u)];
    } else if u.kind == Delete {
      comments := m - {id};
    } else if id in m {
      var e := m[id];
      match u.kind {
        case Change =>
          if u.comment.Some? {
            e := e.(comment := u.comment.value);
          }
          if u.isMajor.Some? {
            e := e.(isMajor := u.isMajor.value);
          }
          if u.assignedUser.Some? {
            e := e.(assignedUser := u.assignedUser.value);
            e := e.(assignedUsername := OrNull(u.assignedUsername));
          }
          if u.resolved.Some? {
            e := e.(resolved := u.resolved.value);
          }
        case AddAnswer =>
          if e.answers.None? {
            e := e.(answers := Some([]));
          }
          var answer := Answer(OrNull(u.answerId), OrNull(u.user), OrNull(u.username), OrNull(u.date),
                               OrNull(u.answer));
          e := e.(answers := Some(e.answers.value + [answer]));
        case DeleteAnswer =>
          if e.answers.Some? {
            var kept := Retain(e.answers.value, u.answerId);
            e := e.(answers := Some(kept));
          }
        case ChangeAnswer =>
          if e.answers.Some? && u.answerId.Some? && u.answerId.value.Str? && u.answer.Some? {
            var answers, _ := ChangeAnswerLoop(e.answers.value, u.answerId.value, u.answer);
            e := e.(answers := Some(answers));
          }
        case _ =>
      }
      comments := m[id := e];
    }
  }

  method NativeUpdateComments(m: CommentMap, us: seq<Update>) returns (comments: CommentMap)
    ensures comments == NativeFold(m, us)
  {
    hide NativeStep;
    comments := m;
    for i := 0 to |us|
      invariant NativeFold(m, us) == NativeFold(comments, us[i..])
    {
      assert us[i..][0] == us[i] && us[i..][1..] == us[i + 1..];
      comments := NativeUpdateOne(comments, us[i]);
    }
  }

  // ---- Who may change and who may see which comments

  /** `owns_comment_updates`: every entry is about the caller's own comments. */
  predicate OwnsUpdates(us: seq<Update>, me: string, m: CommentMap) {
    forall i :: 0 <= i < |us| ==>
      if us[i].kind == Delete
      then Canon(OrNull(us[i].id)) in m ==> PyStr(m[Canon(OrNull(us[i].id))].user) == me
      else PyStr(OrNull(us[i].user)) == me
           && forall j :: 0 <= j < |us[i].answerUsers| ==> PyStr(us[i].answerUsers[j]) == me
  }

  predicate EntryVisible(u: Update, me: string, m: CommentMap) {
    || PyStr(OrNull(u.user)) == me
    || (OrNull(u.assignedUser) != Null && PyStr(OrNull(u.assignedUser)) == me)
    || (u.kind == Delete && (Canon(OrNull(u.id)) in m ==> PyStr(m[Canon(OrNull(u.id))].user) == me))
  }

  function VisibleOnly(us: seq<Update>, me: string, m: CommentMap): seq<Update> {
    if us == [] then []
    else (if EntryVisible(us[0], me, m) then [us[0]] else []) + VisibleOnly(us[1..], me, m)
  }

  /** `filter_cu_list`; `None` drops the field. */
  function FilterUpdates(us: seq<Update>, rights: Rights, me: string, m: CommentMap): Option<seq<Update>> {
    if rights == ReadWithoutComments then None
    else if rights in OWN_COMMENTS_ONLY then Some(VisibleOnly(us, me, m))
    else Some(us)
  }

  /** The filter keeps each visible entry as often as it occurs and drops the others. */
  lemma {:induction false} KeepsExactlyTheVisible(us: seq<Update>, me: string, m: CommentMap, u: Update)
    ensures multiset(VisibleOnly(us, me, m))[u] == if EntryVisible(u, me, m) then multiset(us)[u] else 0
    decreases |us|
  {
    if us != [] {
      KeepsExactlyTheVisible(us[1..], me, m, u);
      assert us == [us[0]] + us[1..];
    }
  }

  /** What a review role may send it may also see: the filter takes nothing from a batch that passes the ownership
      check. */
  lemma {:induction false} OwnUpdatesAreVisible(us: seq<Update>, rights: Rights, me: string, m: CommentMap)
    requires OwnsUpdates(us, me, m) && rights != ReadWithoutComments
    ensures FilterUpdates(us, rights, me, m) == Some(us)
    decreases |us|
  {
    if us != [] {
      assert OwnsUpdates(us[1..], me, m) by {
        assert forall i :: 0 <= i < |us[1..]| ==> us[1..][i] == us[i + 1];
      }
      OwnUpdatesAreVisible(us[1..], Review, me, m);
      assert EntryVisible(us[0], me, m);
      assert [us[0]] + us[1..] == us;
    }
  }

  lemma StepKeepsUnlessDeleted(m: CommentMap, u: Update, id: Json)
    requires id in m && !(u.kind == Delete && Names(u, id))
    ensures id in PyStep(m, u).comments
  {
    hide DeleteWhileIterating, SetAnswer, MatchBelow;
  }

  /** A batch that does not name a comment for deletion leaves its key there, whatever else it does. */
  lemma {:induction false} UndeletedStay(m: CommentMap, us: seq<Update>, id: Json)
    requires id in m && forall i :: 0 <= i < |us| ==> !(us[i].kind == Delete && Names(us[i], id))
    ensures id in PyFold(m, us).comments
    decreases |us|
  {
    if us != [] {
      StepKeepsUnlessDeleted(m, us[0], id);
      if PyStep(m, us[0]).ok {
        UndeletedStay(PyStep(m, us[0]).comments, us[1..], id);
      }
    }
  }

  /** A batch that passes the ownership check leaves the key of everyone else's comment; what stands there may be
      another comment by then. */
  lemma OwnBatchKeepsOthersKeys(m: CommentMap, us: seq<Update>, me: string, id: Json)
    requires OwnsUpdates(us, me, m) && id in m && PyStr(m[id].user) != me
    ensures id in PyFold(m, us).comments
  {
    UndeletedStay(m, us, id);
  }
}
