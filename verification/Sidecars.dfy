/** What comments, bibliography and image rows are after the updates of a diff, told from its entries alone. */
module Sidecars {
  import opened Prelude
  import opened Access
  import opened Comments
  import opened Documents
  import opened Session
  import opened Replay
  import opened Recipients

  // ---- Batches of entries that each put, drop or pass

  /** What one entry does: nothing, raise, set a key, or take one away, which may need the key to be there. */
  datatype Entry<K, V> = Pass | Raise | Put(key: K, value: V) | Drop(key: K, needed: bool)

  predicate Decides<K(==), V>(e: Entry<K, V>, key: K) {
    (e.Put? || e.Drop?) && e.key == key
  }

  /** Entry `i` is the last of the first `n` to decide the key. */
  ghost predicate LastWord<K, V>(es: seq<Entry<K, V>>, n: nat, i: nat, key: K) {
    i < n <= |es| && Decides(es[i], key) && forall j :: i < j < n ==> !Decides(es[j], key)
  }

  ghost predicate Undecided<K, V>(es: seq<Entry<K, V>>, n: nat, key: K) {
    n <= |es| && forall j :: 0 <= j < n ==> !Decides(es[j], key)
  }

  /** The value at `key` is what the last word of the first `n` entries says, or the old one. */
  ghost predicate ReflectsAt<K, V>(was: map<K, V>, es: seq<Entry<K, V>>, n: nat, now: map<K, V>, key: K) {
    && (forall i: nat :: LastWord(es, n, i, key) ==>
          if es[i].Put? then key in now && now[key] == es[i].value else key !in now)
    && (Undecided(es, n, key) ==> (key in now <==> key in was) && (key in was ==> now[key] == was[key]))
  }

  ghost predicate Reflects<K(!new), V>(was: map<K, V>, es: seq<Entry<K, V>>, n: nat, now: map<K, V>) {
    forall key :: ReflectsAt(was, es, n, now, key)
  }

  /** The key is there after the first `n` entries. */
  ghost predicate There<K, V>(was: map<K, V>, es: seq<Entry<K, V>>, n: nat, key: K) {
    || (exists i: nat :: LastWord(es, n, i, key) && es[i].Put?)
    || (key in was && Undecided(es, n, key))
  }

  /** Entry `i` raises at its turn. */
  ghost predicate RaisesAt<K, V>(was: map<K, V>, es: seq<Entry<K, V>>, i: nat) {
    i < |es| && (es[i].Raise? || (es[i].Drop? && es[i].needed && !There(was, es, i, es[i].key)))
  }

  /** The first `n` entries are carried out, and then the batch is over or the next one raises. */
  ghost predicate Carries<K, V>(was: map<K, V>, es: seq<Entry<K, V>>, n: nat) {
    n <= |es| && (forall i :: 0 <= i < n ==> !RaisesAt(was, es, i)) && (n < |es| ==> RaisesAt(was, es, n))
  }

  lemma {:induction false} SomeAreCarried<K, V>(was: map<K, V>, es: seq<Entry<K, V>>, from: nat) returns (n: nat)
    requires from <= |es| && forall i :: 0 <= i < from ==> !RaisesAt(was, es, i)
    ensures Carries(was, es, n)
    decreases |es| - from
  {
    hide RaisesAt;
    if from == |es| || RaisesAt(was, es, from) {
      n := from;
    } else {
      n := SomeAreCarried(was, es, from + 1);
    }
  }

  // ---- The map after the first entries

  ghost function CarryOne<K, V>(m: map<K, V>, e: Entry<K, V>): map<K, V> {
    match e
    case Put(key, value) => m[key := value]
    case Drop(key, _) => m - {key}
    case _ => m
  }

  ghost function Carried<K, V>(was: map<K, V>, es: seq<Entry<K, V>>, n: nat): map<K, V>
    requires n <= |es|
  {
    if n == 0 then was else CarryOne(Carried(was, es, n - 1), es[n - 1])
  }

  lemma OneMoreWord<K, V>(es: seq<Entry<K, V>>, n: nat, key: K)
    requires n < |es|
    ensures Undecided(es, n + 1, key) <==> Undecided(es, n, key) && !Decides(es[n], key)
    ensures forall i: nat :: LastWord(es, n + 1, i, key) <==>
      if Decides(es[n], key) then i == n else LastWord(es, n, i, key)
  {
    forall i: nat
      ensures LastWord(es, n + 1, i, key) <==> if Decides(es[n], key) then i == n else LastWord(es, n, i, key)
    {
      assert LastWord(es, n + 1, i, key) && i < n ==> !Decides(es[n], key);
    }
    hide Decides;
  }

  lemma {:induction false} CarriedReflects<K, V>(was: map<K, V>, es: seq<Entry<K, V>>, n: nat, key: K)
    requires n <= |es|
    ensures ReflectsAt(was, es, n, Carried(was, es, n), key)
    ensures There(was, es, n, key) <==> key in Carried(was, es, n)
    decreases n
  {
    if n > 0 {
      CarriedReflects(was, es, n - 1, key);
      OneMoreWord(es, n - 1, key);
      CarriedNext(was, es, n - 1);
      hide Carried;
      var e := es[n - 1];
      assert Decides(e, key) ==> (key in CarryOne(Carried(was, es, n - 1), e) <==> e.Put?);
      assert !Decides(e, key) ==> (There(was, es, n, key) <==> There(was, es, n - 1, key));
      if Decides(e, key) && e.Put? {
        assert LastWord(es, n, n - 1, key);
      }
      hide LastWord, Undecided;
    }
  }

  lemma AllReflect<K(!new), V>(was: map<K, V>, es: seq<Entry<K, V>>, n: nat)
    requires n <= |es|
    ensures Reflects(was, es, n, Carried(was, es, n))
  {
    forall key ensures ReflectsAt(was, es, n, Carried(was, es, n), key) {
      CarriedReflects(was, es, n, key);
    }
  }

  ghost predicate RaisesOn<K, V>(m: map<K, V>, e: Entry<K, V>) {
    e.Raise? || (e.Drop? && e.needed && e.key !in m)
  }

  lemma CarriedNext<K, V>(was: map<K, V>, es: seq<Entry<K, V>>, i: nat)
    requires i < |es|
    ensures Carried(was, es, i + 1) == CarryOne(Carried(was, es, i), es[i])
  {
  }

  /** Whether an entry raises can be told from the map at its turn. */
  lemma RaisesIff<K, V>(was: map<K, V>, es: seq<Entry<K, V>>, i: nat)
    requires i < |es|
    ensures RaisesAt(was, es, i) <==> RaisesOn(Carried(was, es, i), es[i])
  {
    if es[i].Drop? {
      CarriedReflects(was, es, i, es[i].key);
    }
    hide There, Carried;
  }

  // ---- Bibliography

  /** What an entry asks for: one without an id is skipped; a type is needed, and a reference to set one; what is to be
      deleted has to be there. */
  function BibEntry(u: BibUpdate): Entry<Json, Json> {
    if u.id.None? then Pass
    else match u.op
      case NoBibType => Raise
      case OtherBib => Pass
      case SetReference(None) => Raise
      case SetReference(Some(reference)) => Put(Canon(u.id.value), reference)
      case DeleteReference => Drop(Canon(u.id.value), true)
  }

  function BibEntries(us: seq<BibUpdate>): seq<Entry<Json, Json>> {
    seq(|us|, i requires 0 <= i < |us| => BibEntry(us[i]))
  }

  lemma OneReference(m: Bibliography, us: seq<BibUpdate>)
    requires us != []
    ensures UpdateBibliography(m, us) == if RaisesOn(m, BibEntry(us[0])) then (m, false)
                                         else UpdateBibliography(CarryOne(m, BibEntry(us[0])), us[1..])
  {
    hide Canon;
  }

  lemma {:induction false} BibliographyFrom(was: Bibliography, us: seq<BibUpdate>, i: nat, n: nat)
    requires i <= n && Carries(was, BibEntries(us), n)
    ensures UpdateBibliography(Carried(was, BibEntries(us), i), us[i..])
         == (Carried(was, BibEntries(us), n), n == |us|)
    decreases n - i
  {
    var es := BibEntries(us);
    hide RaisesAt, RaisesOn, CarryOne, BibEntry, Carried;
    if i < |us| {
      assert us[i..][0] == us[i] && us[i..][1..] == us[i + 1..] && es[i] == BibEntry(us[i]);
      RaisesIff(was, es, i);
      CarriedNext(was, es, i);
      OneReference(Carried(was, es, i), us[i..]);
      hide UpdateBibliography;
      if i < n {
        BibliographyFrom(was, us, i + 1, n);
      }
    }
  }

  /** After a batch every reference is that of the last entry, among those carried out, that sets or deletes it; the
      batch runs to its end exactly when no entry raises at its turn. */
  lemma BibliographyIs(was: Bibliography, us: seq<BibUpdate>, n: nat)
    requires Carries(was, BibEntries(us), n)
    ensures Reflects(was, BibEntries(us), n, UpdateBibliography(was, us).0)
    ensures UpdateBibliography(was, us).1 <==> n == |us|
  {
    BibliographyFrom(was, us, 0, n);
    assert us[0..] == us;
    AllReflect(was, BibEntries(us), n);
    hide Reflects;
  }

  // ---- Images

  /** What an entry asks of the image rows: an update needs a sender whom the database knows, and for an image of theirs
      a title and a copyright that are not null; a deletion needs no row. */
  function ImageEntry(u: ImageUpdate, stored: bool): Entry<int, ImageRow> {
    match u.op
    case NoImageType => if u.id.NoImageId? then Pass else Raise
    case OtherImage => Pass
    case DeleteImage =>
      (match u.id
       case ImageId(n) => Drop(n, false)
       case BadImageId => Raise
       case _ => Pass)
    case SetImage(mine, title, copyright) =>
      if u.id.NoImageId? then Pass
      else if u.id.BadImageId? || !stored then Raise
      else if u.id.NullImageId? || !mine then Pass
      else if title.None? || title == Some(Null) || copyright.None? || copyright == Some(Null) then Raise
      else Put(u.id.n, ImageRow(PyStr(title.value), copyright.value))
  }

  function ImageEntries(us: seq<ImageUpdate>, stored: bool): seq<Entry<int, ImageRow>> {
    seq(|us|, i requires 0 <= i < |us| => ImageEntry(us[i], stored))
  }

  lemma OneImage(m: ImageRows, us: seq<ImageUpdate>, role: Role)
    requires us != []
    ensures UpdateImages(m, us, role) == if RaisesOn(m, ImageEntry(us[0], role.stored)) then (m, false)
                                         else UpdateImages(CarryOne(m, ImageEntry(us[0], role.stored)), us[1..], role)
  {
    hide PyStr;
  }

  lemma {:induction false} ImagesFrom(was: ImageRows, us: seq<ImageUpdate>, role: Role, i: nat, n: nat)
    requires i <= n && Carries(was, ImageEntries(us, role.stored), n)
    ensures UpdateImages(Carried(was, ImageEntries(us, role.stored), i), us[i..], role)
         == (Carried(was, ImageEntries(us, role.stored), n), n == |us|)
    decreases n - i
  {
    var es := ImageEntries(us, role.stored);
    hide RaisesAt, RaisesOn, CarryOne, ImageEntry, Carried;
    if i < |us| {
      assert us[i..][0] == us[i] && us[i..][1..] == us[i + 1..] && es[i] == ImageEntry(us[i], role.stored);
      RaisesIff(was, es, i);
      CarriedNext(was, es, i);
      OneImage(Carried(was, es, i), us[i..], role);
      hide UpdateImages;
      if i < n {
        ImagesFrom(was, us, role, i + 1, n);
      }
    }
  }

  /** The same for the image rows. */
  lemma ImagesAre(was: ImageRows, us: seq<ImageUpdate>, role: Role, n: nat)
    requires Carries(was, ImageEntries(us, role.stored), n)
    ensures Reflects(was, ImageEntries(us, role.stored), n, UpdateImages(was, us, role).0)
    ensures UpdateImages(was, us, role).1 <==> n == |us|
  {
    ImagesFrom(was, us, role, 0, n);
    assert us[0..] == us;
    AllReflect(was, ImageEntries(us, role.stored), n);
    hide Reflects;
  }

  // ---- Comments

  /** Every other comment is as before. */
  ghost predicate SameElsewhere(was: CommentMap, now: CommentMap, id: Json) {
    forall k :: k != id ==> (k in now <==> k in was) && (k in was ==> now[k] == was[k])
  }

  ghost function Given<T>(field: Option<T>, otherwise: T): T {
    if field.Some? then field.value else otherwise
  }

  ghost predicate Created(u: Update, c: Comment) {
    && u.user == Some(c.user) && u.username == Some(c.username) && u.date == Some(c.date)
    && u.assignedUser == Some(c.assignedUser) && u.assignedUsername == Some(c.assignedUsername)
    && u.comment == Some(c.comment) && u.isMajor == Some(c.isMajor) && u.resolved == Some(c.resolved)
    && c.isGlobal == Given(u.isGlobal, Bool(false)) && c.answers.None?
  }

  ghost predicate Changed(u: Update, was: Comment, now: Comment) {
    && u.comment == Some(now.comment)
    && now.isMajor == Given(u.isMajor, was.isMajor) && now.resolved == Given(u.resolved, was.resolved)
    && (if u.assignedUser.Some? && u.assignedUsername.Some?
        then u.assignedUser == Some(now.assignedUser) && u.assignedUsername == Some(now.assignedUsername)
        else now.assignedUser == was.assignedUser && now.assignedUsername == was.assignedUsername)
    && now.user == was.user && now.username == was.username && now.date == was.date && now.isGlobal == was.isGlobal
    && now.answers == was.answers
  }

  /** The new answer comes last. */
  ghost predicate Answered(u: Update, was: seq<Answer>, now: seq<Answer>) {
    && |now| == |was| + 1 && now[..|was|] == was
    && var a := now[|was|];
       && u.answerId == Some(a.id) && u.user == Some(a.user) && u.username == Some(a.username)
       && u.date == Some(a.date) && u.answer == Some(a.answer)
  }

  /** The other answers stay in their order, and no match is left exactly when no two were neighbours. */
  ghost predicate AnswerDeleted(id: Json, was: seq<Answer>, now: seq<Answer>) {
    && Without(now, id) == Without(was, id)
    && (NoMatch(id, now)
        <==> (forall i :: 0 <= i < |was| - 1 ==> !(Same(was[i].id, id) && Same(was[i + 1].id, id))))
  }

  ghost predicate AnswerChanged(id: Json, answer: Json, was: seq<Answer>, now: seq<Answer>) {
    && |now| == |was|
    && forall i :: 0 <= i < |was| ==> now[i] == if Same(was[i].id, id) then was[i].(answer := answer) else was[i]
  }

  ghost predicate NoMatch(id: Json, answers: seq<Answer>) {
    forall i :: 0 <= i < |answers| ==> !Same(answers[i].id, id)
  }

  /** What one entry makes of the comments, field by field, and whether it raises. */
  ghost predicate EntryDoes(was: CommentMap, u: Update, now: CommentMap, ok: bool) {
    if u.id.None? then ok && now == was
    else
      var id := Canon(u.id.value);
      SameElsewhere(was, now, id) &&
      match u.kind
      case NoKind => !ok && now == was
      case OtherKind => ok && now == was
      case Create =>
        && (ok <==> u.user.Some? && u.username.Some? && u.assignedUser.Some? && u.assignedUsername.Some?
                    && u.date.Some? && u.comment.Some? && u.isMajor.Some? && u.resolved.Some?)
        && (if ok then id in now && Created(u, now[id]) else now == was)
      case Delete => (ok <==> id in was) && id !in now
      case Change =>
        && (ok <==> id in was && u.comment.Some?)
        && (if ok then id in now && Changed(u, was[id], now[id]) else now == was)
      case AddAnswer =>
        && (id in now <==> id in was)
        && (ok <==> id in was && u.answerId.Some? && u.user.Some? && u.username.Some? && u.date.Some?
                    && u.answer.Some?)
        && (id in was ==>
              && now[id] == was[id].(answers := now[id].answers) && now[id].answers.Some?
              && if ok then Answered(u, Given(was[id].answers, []), now[id].answers.value)
                 else now[id].answers.value == Given(was[id].answers, []))
      case DeleteAnswer =>
        && (ok <==> id in was && was[id].answers.Some? && u.answerId.Some?)
        && (if ok then
              && id in now && now[id] == was[id].(answers := now[id].answers) && now[id].answers.Some?
              && AnswerDeleted(u.answerId.value, was[id].answers.value, now[id].answers.value)
            else now == was)
      case ChangeAnswer =>
        && (ok <==> id in was && was[id].answers.Some? && u.answerId.Some?
                    && (u.answer.Some? || NoMatch(u.answerId.value, was[id].answers.value)))
        && (if ok && u.answer.Some? then
              && id in now && now[id] == was[id].(answers := now[id].answers) && now[id].answers.Some?
              && AnswerChanged(u.answerId.value, u.answer.value, was[id].answers.value, now[id].answers.value)
            else now == was)
  }

  lemma {:induction false} SweepKeepsOthers(s: seq<Answer>, i: nat, id: Json)
    ensures Without(DeleteWhileIterating(s, i, id), id) == Without(s, id)
    decreases |s| - i
  {
    hide Same, SameAnswer, Without;
    if i < |s| {
      if Same(s[i].id, id) {
        var j, rest := RemoveFirstAt(s, i);
        SameAnswersMatchAlike(s[j], s[i], id);
        assert rest == s[..j] + s[j + 1..];
        WithoutDropsMatch(s, j, id);
        SweepKeepsOthers(rest, i + 1, id);
      } else {
        SweepKeepsOthers(s, i + 1, id);
      }
    }
  }

  lemma SweepIs(s: seq<Answer>, id: Json)
    ensures AnswerDeleted(id, s, DeleteWhileIterating(s, 0, id))
  {
    SweepKeepsOthers(s, 0, id);
    var now := DeleteWhileIterating(s, 0, id);
    hide Same, DeleteWhileIterating, Without;
    if AdjacentMatches(s, id) {
      AdjacentIsSkipped(s, 0, id);
    } else {
      NothingSkipped(s, 0, id);
      WithoutHasNoMatch(s, id);
      WithoutIsShorter(s, id);
    }
  }

  lemma {:induction false} WithoutIsShorter(s: seq<Answer>, id: Json)
    ensures |Without(s, id)| <= |s| && forall i :: 0 <= i < |Without(s, id)| ==> !Same(Without(s, id)[i].id, id)
  {
    hide Same;
    if s != [] {
      WithoutIsShorter(s[1..], id);
    }
  }

  /** What does not match stays, as often as it was there. */
  lemma {:induction false} WithoutKeeps(s: seq<Answer>, id: Json, a: Answer)
    ensures multiset(Without(s, id))[a] == if Same(a.id, id) then 0 else multiset(s)[a]
  {
    hide Same;
    if s != [] {
      WithoutKeeps(s[1..], id, a);
      assert s == [s[0]] + s[1..];
    }
  }

  lemma StepSparesOthers(m: CommentMap, u: Update)
    ensures u.id.None? ==> PyStep(m, u) == Folded(m, true)
    ensures u.id.Some? ==> SameElsewhere(m, PyStep(m, u).comments, Canon(u.id.value))
  {
    hide DeleteWhileIterating, SetAnswer, MatchBelow, PyCreate, PyChange, Canon;
  }

  lemma AnswerStepDoes(m: CommentMap, u: Update)
    requires u.kind in {AddAnswer, DeleteAnswer, ChangeAnswer}
    ensures EntryDoes(m, u, PyStep(m, u).comments, PyStep(m, u).ok)
  {
    StepSparesOthers(m, u);
    if u.id.Some? && u.answerId.Some? && Canon(u.id.value) in m && m[Canon(u.id.value)].answers.Some? {
      SweepIs(m[Canon(u.id.value)].answers.value, u.answerId.value);
    }
    hide SameElsewhere, DeleteWhileIterating, AnswerDeleted, Same, Canon;
  }

  lemma FieldStepDoes(m: CommentMap, u: Update)
    requires u.kind in {Create, Change}
    ensures EntryDoes(m, u, PyStep(m, u).comments, PyStep(m, u).ok)
  {
    StepSparesOthers(m, u);
    hide SameElsewhere, Canon;
  }

  lemma StepDoes(m: CommentMap, u: Update)
    ensures EntryDoes(m, u, PyStep(m, u).comments, PyStep(m, u).ok)
  {
    if u.kind in {AddAnswer, DeleteAnswer, ChangeAnswer} {
      AnswerStepDoes(m, u);
      hide PyStep, EntryDoes;
    } else if u.kind in {Create, Change} {
      FieldStepDoes(m, u);
      hide PyStep, EntryDoes;
    } else {
      StepSparesOthers(m, u);
      hide SameElsewhere, Canon;
    }
  }

  /** One map after the other: each of the first entries does what it says, and then the batch is over or one raises. */
  ghost predicate Through(us: seq<Update>, maps: seq<CommentMap>, now: CommentMap, ok: bool) {
    && 0 < |maps| <= |us| + 1
    && (forall i :: 0 <= i < |maps| - 1 ==> EntryDoes(maps[i], us[i], maps[i + 1], true))
    && (ok <==> |maps| == |us| + 1)
    && if ok then now == maps[|maps| - 1] else EntryDoes(maps[|maps| - 1], us[|maps| - 1], now, false)
  }

  lemma ThroughCons(us: seq<Update>, m: CommentMap, maps: seq<CommentMap>, now: CommentMap, ok: bool)
    requires us != [] && Through(us[1..], maps, now, ok) && EntryDoes(m, us[0], maps[0], true)
    ensures Through(us, [m] + maps, now, ok)
  {
    hide EntryDoes;
    var all := [m] + maps;
    forall i | 0 <= i < |all| - 1 ensures EntryDoes(all[i], us[i], all[i + 1], true) {
      if i > 0 {
        assert EntryDoes(maps[i - 1], us[1..][i - 1], maps[i], true);
      }
    }
  }

  /** A batch of comment updates, entry by entry. */
  lemma {:induction false} CommentsAre(m: CommentMap, us: seq<Update>) returns (maps: seq<CommentMap>)
    ensures Through(us, maps, PyFold(m, us).comments, PyFold(m, us).ok) && maps != [] && maps[0] == m
    decreases |us|
  {
    hide PyStep, EntryDoes;
    if us == [] {
      maps := [m];
    } else {
      StepDoes(m, us[0]);
      var next := PyStep(m, us[0]);
      if next.ok {
        var rest := CommentsAre(next.comments, us[1..]);
        ThroughCons(us, m, rest, PyFold(m, us).comments, PyFold(m, us).ok);
        maps := [m] + rest;
      } else {
        maps := [m];
      }
    }
  }

  // ---- Comments on the native server

  /** What one entry makes of the comments there: ids that are not text count for nothing, and what is missing is null
      or leaves the field alone. */
  ghost predicate NativeDoes(was: CommentMap, u: Update, now: CommentMap) {
    if u.id.None? || !u.id.value.Str? then now == was
    else
      var id: Json := u.id.value;
      SameElsewhere(was, now, id) &&
      match u.kind
      case NoKind => now == was
      case OtherKind => now == was
      case Create => id in now && NativeCreated(u, now[id])
      case Delete => id !in now
      case Change => if id in was then id in now && NativeChanged(u, was[id], now[id]) else now == was
      case AddAnswer =>
        if id !in was then now == was
        else
          && id in now && now[id] == was[id].(answers := now[id].answers) && now[id].answers.Some?
          && var before, after := Given(was[id].answers, []), now[id].answers.value;
             && |after| == |before| + 1 && after[..|before|] == before
             && after[|before|] == Answer(Given(u.answerId, Null), Given(u.user, Null), Given(u.username, Null),
                                          Given(u.date, Null), Given(u.answer, Null))
      case DeleteAnswer =>
        if id !in was || was[id].answers.None? || u.answerId.None? || !u.answerId.value.Str? then now == was
        else
          && id in now && now[id] == was[id].(answers := now[id].answers) && now[id].answers.Some?
          && NoMatch(u.answerId.value, now[id].answers.value)
          && now[id].answers.value == Without(was[id].answers.value, u.answerId.value)
      case ChangeAnswer =>
        if id !in was || was[id].answers.None? || u.answerId.None? || !u.answerId.value.Str? || u.answer.None?
        then now == was
        else
          && id in now && now[id] == was[id].(answers := now[id].answers) && now[id].answers.Some?
          && AnswerChanged(u.answerId.value, u.answer.value, was[id].answers.value, now[id].answers.value)
  }

  ghost predicate NativeCreated(u: Update, c: Comment) {
    && c.user == Given(u.user, Null) && c.username == Given(u.username, Null) && c.date == Given(u.date, Null)
    && c.assignedUser == Given(u.assignedUser, Null) && c.assignedUsername == Given(u.assignedUsername, Null)
    && c.comment == Given(u.comment, Null) && c.isMajor == Given(u.isMajor, Null)
    && c.resolved == Given(u.resolved, Null) && c.isGlobal == Given(u.isGlobal, Bool(false)) && c.answers.None?
  }

  ghost predicate NativeChanged(u: Update, was: Comment, now: Comment) {
    && now.comment == Given(u.comment, was.comment) && now.isMajor == Given(u.isMajor, was.isMajor)
    && now.resolved == Given(u.resolved, was.resolved)
    && now.assignedUser == Given(u.assignedUser, was.assignedUser)
    && now.assignedUsername == (if u.assignedUser.Some? then Given(u.assignedUsername, Null) else was.assignedUsername)
    && now.user == was.user && now.username == was.username && now.date == was.date && now.isGlobal == was.isGlobal
    && now.answers == was.answers
  }

  lemma NativeSparesOthers(m: CommentMap, u: Update)
    ensures u.id.Some? && u.id.value.Str? ==> SameElsewhere(m, NativeStep(m, u), u.id.value)
  {
    hide Without, SetAnswer, NativeCreate, NativeChange;
  }

  lemma NativeFieldStepDoes(m: CommentMap, u: Update)
    requires u.kind in {Create, Change}
    ensures NativeDoes(m, u, NativeStep(m, u))
  {
    NativeSparesOthers(m, u);
    hide SameElsewhere;
  }

  lemma NativeDeletesAnswers(m: CommentMap, u: Update)
    requires u.kind in {DeleteAnswer, ChangeAnswer}
    ensures NativeDoes(m, u, NativeStep(m, u))
  {
    NativeSparesOthers(m, u);
    if u.id.Some? && u.answerId.Some? && u.id.value in m && m[u.id.value].answers.Some? {
      WithoutIsShorter(m[u.id.value].answers.value, u.answerId.value);
    }
    hide SameElsewhere, Without, Same;
  }

  lemma NativeStepDoes(m: CommentMap, u: Update)
    ensures NativeDoes(m, u, NativeStep(m, u))
  {
    if u.kind in {Create, Change} {
      NativeFieldStepDoes(m, u);
      hide NativeStep, NativeDoes;
    } else if u.kind in {DeleteAnswer, ChangeAnswer} {
      NativeDeletesAnswers(m, u);
      hide NativeStep, NativeDoes;
    } else {
      NativeSparesOthers(m, u);
      hide SameElsewhere;
    }
  }

  // ---- A whole diff

  ghost predicate CommentsTold(d: Diff, was: Field<CommentMap>, now: Field<CommentMap>, maps: seq<CommentMap>, ok: bool)
  {
    if d.cu.None? then ok && now == was
    else if was.Cipher? then !ok && now == was
    else maps != [] && maps[0] == was.value && now.Plain? && Through(d.cu.value, maps, now.value, ok)
  }

  ghost predicate BibliographyTold(d: Diff, was: Field<Bibliography>, now: Field<Bibliography>, n: nat, ok: bool) {
    if d.bu.None? then ok && now == was
    else if was.Cipher? then !ok && now == was
    else
      var es := BibEntries(d.bu.value);
      now.Plain? && Carries(was.value, es, n) && Reflects(was.value, es, n, now.value) && (ok <==> n == |es|)
  }

  ghost predicate ImagesTold(d: Diff, stored: bool, was: ImageRows, now: ImageRows, n: nat, ok: bool) {
    if d.iu.None? then ok && now == was
    else
      var es := ImageEntries(d.iu.value, stored);
      Carries(was, es, n) && Reflects(was, es, n, now) && (ok <==> n == |es|)
  }

  /** How far the updates of a diff got. */
  datatype Progress = Progress(maps: seq<CommentMap>, commentsOk: bool, references: nat, referencesOk: bool,
                               images: nat, imagesOk: bool)

  /** The title first, which cannot raise; then comments, bibliography and images, each only if nothing has raised. */
  ghost predicate Told<N>(was: Core<N>, now: Core<N>, d: Diff, stored: bool, p: Progress, ok: bool) {
    && (d.ti.Some? ==> now.doc.title == now.row.title && now.doc.title == Last(d.ti.value, 255))
    && (d.ti.None? ==> now.doc.title == was.doc.title)
    && CommentsTold(d, was.doc.comments, now.doc.comments, p.maps, p.commentsOk)
    && (if p.commentsOk
        then BibliographyTold(d, was.doc.bibliography, now.doc.bibliography, p.references, p.referencesOk)
        else now.doc.bibliography == was.doc.bibliography)
    && (if p.commentsOk && p.referencesOk then ImagesTold(d, stored, was.images, now.images, p.images, p.imagesOk)
        else now.images == was.images)
    && (ok <==> p.commentsOk && p.referencesOk && p.imagesOk)
  }

  lemma CommentsStage<N>(core: Core<N>, d: Diff) returns (maps: seq<CommentMap>)
    ensures var (c, ok) := ApplyComments(core, d);
      && CommentsTold(d, core.doc.comments, c.doc.comments, maps, ok)
      && c == core.(doc := core.doc.(comments := c.doc.comments))
  {
    hide PyFold, Through;
    maps := [];
    if d.cu.Some? && core.doc.comments.Plain? {
      maps := CommentsAre(core.doc.comments.value, d.cu.value);
    }
  }

  lemma BibliographyStage<N>(core: Core<N>, d: Diff) returns (n: nat)
    ensures var (c, ok) := ApplyBibliography(core, d);
      && BibliographyTold(d, core.doc.bibliography, c.doc.bibliography, n, ok)
      && c == core.(doc := core.doc.(bibliography := c.doc.bibliography))
  {
    hide UpdateBibliography, Carries, Reflects;
    n := 0;
    if d.bu.Some? && core.doc.bibliography.Plain? {
      n := SomeAreCarried(core.doc.bibliography.value, BibEntries(d.bu.value), 0);
      BibliographyIs(core.doc.bibliography.value, d.bu.value, n);
    }
  }

  lemma ImagesStage<N>(core: Core<N>, d: Diff, role: Role) returns (n: nat)
    ensures var (c, ok) := ApplyImages(core, d, role);
      ImagesTold(d, role.stored, core.images, c.images, n, ok) && c == core.(images := c.images)
  {
    hide UpdateImages, Carries, Reflects;
    n := 0;
    if d.iu.Some? {
      n := SomeAreCarried(core.images, ImageEntries(d.iu.value, role.stored), 0);
      ImagesAre(core.images, d.iu.value, role, n);
    }
  }

  lemma UpdatesAreTold<N>(core: Core<N>, d: Diff, role: Role) returns (p: Progress)
    ensures var (c, ok) := ApplySidecars(core, d, role); Told(core, c, d, role.stored, p, ok)
  {
    var titled := ApplyTitle(core, d);
    var maps := CommentsStage(titled, d);
    var (c1, ok1) := ApplyComments(titled, d);
    var references := BibliographyStage(c1, d);
    var (c2, ok2) := ApplyBibliography(c1, d);
    var images := ImagesStage(c2, d, role);
    var (c3, ok3) := ApplyImages(c2, d, role);
    p := Progress(maps, ok1, references, !ok1 || ok2, images, !ok1 || !ok2 || ok3);
    hide ApplyComments, ApplyBibliography, ApplyImages, CommentsTold, BibliographyTold, ImagesTold, Last;
  }

  /** What an accepted diff makes of title, comments, bibliography and images. */
  lemma DiffIsTold<N>(cfg: Config<N>, core: Core<N>, order: seq<nat>, roles: map<nat, Role>, id: nat, d: Diff)
    returns (p: Progress, ok: bool)
    requires cfg.saveInterval > 0 && id in roles && !core.doc.e2ee && d.v == core.doc.version
    requires !PassedOver(cfg, core.doc, roles[id], d) && StepsApply(cfg, core, d)
    ensures var f := HandleDiff(cfg, core, order, roles, id, d);
      Told(core, f.core, d, roles[id].stored, p, ok) && (f.ok <==> ok && d.rid.Some?)
  {
    DiscardedIsPassedOver(cfg, core, roles[id], d);
    var logged := Log(StepsOf(cfg, core, d).value, d);
    p := UpdatesAreTold(logged, d, roles[id]);
    var (c, fine) := ApplySidecars(logged, d, roles[id]);
    ok := fine;
    SavedAsTold(cfg, logged, c, d, roles[id].stored, p, ok);
    LoggedAsTold(cfg, core, d, c, roles[id].stored, p, ok);
    LoggedAsTold(cfg, core, d, Save(cfg, c, false), roles[id].stored, p, ok);
    hide PassedOver, Discarded, Missing, Save, ApplySidecars, ApplySteps, Log, Told, ReadableMail;
  }

  lemma SavedAsTold<N>(cfg: Config<N>, was: Core<N>, now: Core<N>, d: Diff, stored: bool, p: Progress, ok: bool)
    requires Told(was, now, d, stored, p, ok)
    ensures Told(was, Save(cfg, now, false), d, stored, p, ok)
  {
    hide CommentsTold, BibliographyTold, ImagesTold, Last;
  }

  lemma LoggedAsTold<N>(cfg: Config<N>, core: Core<N>, d: Diff, now: Core<N>, stored: bool, p: Progress, ok: bool)
    requires StepsOf(cfg, core, d).Some?
    ensures Told(Log(StepsOf(cfg, core, d).value, d), now, d, stored, p, ok) <==> Told(core, now, d, stored, p, ok)
  {
    hide CommentsTold, BibliographyTold, ImagesTold, Last, ApplySteps;
  }
}
