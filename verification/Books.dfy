/** Books: who can open the chapters (`set_chapters`, `save_access_rights`), and paths nobody uses yet. */
module Books {
  import opened Prelude
  import opened Decimals
  import opened Access
  import opened Invites

  // ---- Fresh paths

  function Numbered(base: string, counter: nat): string {
    if counter == 0 then base else base + " " + Digits(counter)
  }

  lemma NumberedIsInjective(base: string, i: nat, j: nat)
    requires Numbered(base, i) == Numbered(base, j)
    ensures i == j
  {
    if i > 0 && j > 0 {
      var n := |base| + 1;
      assert Numbered(base, i)[n..] == Digits(i) && Numbered(base, j)[n..] == Digits(j);
      NumberOfDigits(i);
      NumberOfDigits(j);
    }
  }

  /** Only as many names can be tried in vain as there are taken ones. */
  lemma {:induction false} TakenNames(base: string, taken: set<string>, n: nat)
    requires forall i :: 0 <= i < n ==> Numbered(base, i) in taken
    ensures n <= |taken|
  {
    if n > 0 {
      var last := Numbered(base, n - 1);
      forall i | 0 <= i < n - 1 ensures Numbered(base, i) in taken - {last} {
        if Numbered(base, i) == last {
          NumberedIsInjective(base, i, n - 1);
        }
      }
      TakenNames(base, taken - {last}, n - 1);
    }
  }

  /** The loop in `import_create` and `copy`: it ends after at most as many turns as there are taken paths, with the
      least free number. The empty path is taken as it is. */
  method FreshPath(base: string, taken: set<string>) returns (path: string, ghost counter: nat)
    ensures base == "" ==> path == ""
    ensures base != "" ==>
      && path == Numbered(base, counter) && path !in taken && counter <= |taken|
      && forall i :: 0 <= i < counter ==> Numbered(base, i) in taken
  {
    path, counter := base, 0;
    if |path| > 0 {
      var c := 0;
      TakenNames(base, taken, 0);
      while path in taken
        invariant path == Numbered(base, c) && c <= |taken|
        invariant forall i :: 0 <= i < c ==> Numbered(base, i) in taken
        decreases |taken| - c
      {
        TakenNames(base, taken, c + 1);
        c := c + 1;
        path := base + " " + Digits(c);
      }
      counter := c;
    }
  }

  // ---- Chapters and rights

  datatype Chapter = Chapter(text: nat, number: int, part: string)

  /** A book, those it is shared with, and the rights on documents. */
  datatype Shelf = Shelf(owner: nat, chapters: seq<Chapter>, holders: set<Holder>, rows: Table)

  predicate Texts(chapters: seq<Chapter>, d: nat) {
    exists i :: 0 <= i < |chapters| && chapters[i].text == d
  }

  /** Read access for everyone in `needed` without any. */
  function WithRead(rows: Table, needed: set<Key>): Table {
    map k | k in rows.Keys + needed :: if k in rows then rows[k] else Entry(Read, "")
  }

  function OpenedFor(holders: set<Holder>, c: Chapter, owners: map<nat, nat>, user: nat): set<Key> {
    if IsOwner(owners, c.text, user) then set h | h in holders :: (c.text, h) else {}
  }

  /** The rows missing when `user` saves these chapters: everyone the book is shared with, on the chapters of theirs. */
  function Opened(s: Shelf, chapters: seq<Chapter>, owners: map<nat, nat>, user: nat): set<Key>
    decreases |chapters|
  {
    if chapters == [] then {}
    else
      var c := chapters[|chapters| - 1];
      Opened(s, chapters[..|chapters| - 1], owners, user) + OpenedFor(s.holders, c, owners, user)
  }

  lemma {:induction false} OpenedAt(s: Shelf, chapters: seq<Chapter>, owners: map<nat, nat>, user: nat, k: Key)
    ensures k in Opened(s, chapters, owners, user)
       <==> Texts(chapters, k.0) && IsOwner(owners, k.0, user) && k.1 in s.holders
    decreases |chapters|
  {
    if chapters != [] {
      var init := chapters[..|chapters| - 1];
      OpenedAt(s, init, owners, user, k);
      var c := chapters[|chapters| - 1];
      assert Texts(chapters, k.0) <==> Texts(init, k.0) || c.text == k.0 by {
        if Texts(init, k.0) {
          var i :| 0 <= i < |init| && init[i].text == k.0;
          assert chapters[i].text == k.0;
        }
      }
    }
  }

  /** A chapter of a collaborator's on which the book's owner has no right: the code means to create one, passes a field
      that rows of rights do not have, and raises. */
  predicate Stops(s: Shelf, c: Chapter, owners: map<nat, nat>, user: nat) {
    && user != s.owner && IsOwner(owners, c.text, user)
    && User(s.owner) !in s.holders && (c.text, User(s.owner)) !in s.rows
  }

  /** How many chapters are stored: all, or those up to the one that raises, which has been stored by then. */
  function StoredCount(s: Shelf, chapters: seq<Chapter>, owners: map<nat, nat>, user: nat): (n: nat)
    ensures n <= |chapters|
    decreases |chapters|
  {
    if chapters == [] then 0
    else if Stops(s, chapters[0], owners, user) then 1
    else 1 + StoredCount(s, chapters[1..], owners, user)
  }

  /** `set_chapters`; `listing` are the stored chapters by number. False: it has raised, and what it did stays. */
  function SetChapters(s: Shelf, listing: seq<Chapter>, chapters: seq<Chapter>, owners: map<nat, nat>, user: nat)
    : (Shelf, bool)
  {
    if listing == chapters then (s, true)
    else
      var stored := chapters[..StoredCount(s, chapters, owners, user)];
      (s.(chapters := stored, rows := WithRead(s.rows, Opened(s, stored, owners, user))),
       forall i :: 0 <= i < |chapters| ==> !Stops(s, chapters[i], owners, user))
  }

  lemma {:induction false} StoredUntil(s: Shelf, chapters: seq<Chapter>, owners: map<nat, nat>, user: nat, i: nat)
    requires i <= |chapters| && forall j :: 0 <= j < i ==> !Stops(s, chapters[j], owners, user)
    ensures var n := StoredCount(s, chapters, owners, user);
      && (i == |chapters| ==> n == i)
      && (i < |chapters| && Stops(s, chapters[i], owners, user) ==> n == i + 1)
    decreases i
  {
    if i > 0 {
      assert forall j :: 0 <= j < i - 1 ==> chapters[1..][j] == chapters[j + 1];
      StoredUntil(s, chapters[1..], owners, user, i - 1);
      assert i < |chapters| ==> chapters[1..][i - 1] == chapters[i];
    }
  }

  lemma {:induction false} OwnersSaveIsWhole(s: Shelf, chapters: seq<Chapter>, owners: map<nat, nat>)
    ensures StoredCount(s, chapters, owners, s.owner) == |chapters|
    decreases |chapters|
  {
    if chapters != [] {
      OwnersSaveIsWhole(s, chapters[1..], owners);
    }
  }

  /** The rows of a holder on those of the first `n` chapters that are the user's. */
  function OpenedTo(holder: Holder, chapters: seq<Chapter>, n: nat, owners: map<nat, nat>, user: nat): set<Key>
    requires n <= |chapters|
  {
    set i | 0 <= i < n && IsOwner(owners, chapters[i].text, user) :: (chapters[i].text, holder)
  }

  lemma OpenedToNext(holder: Holder, chapters: seq<Chapter>, n: nat, owners: map<nat, nat>, user: nat)
    requires n < |chapters|
    ensures OpenedTo(holder, chapters, n + 1, owners, user)
         == OpenedTo(holder, chapters, n, owners, user)
            + if IsOwner(owners, chapters[n].text, user) then {(chapters[n].text, holder)} else {}
  {
  }

  /** One entry of `save_access_rights`, which only the owner can call. */
  function Share(s: Shelf, holder: Holder, exist: bool, owners: map<nat, nat>): Shelf {
    if holder !in s.holders && !exist then s
    else s.(holders := s.holders + {holder},
            rows := WithRead(s.rows, OpenedTo(holder, s.chapters, |s.chapters|, owners, s.owner)))
  }

  function Unshare(s: Shelf, holder: Holder): Shelf {
    s.(holders := s.holders - {holder})
  }

  /** A collaborator's own chapter on which the book's owner has no right, though not among those it is shared with. */
  ghost predicate Lacks(s: Shelf, c: Chapter, owners: map<nat, nat>, user: nat) {
    && user != s.owner && c.text in owners && owners[c.text] == user
    && User(s.owner) !in s.holders && (c.text, User(s.owner)) !in s.rows
  }

  ghost predicate StopsAtLast(s: Shelf, stored: seq<Chapter>, owners: map<nat, nat>, user: nat) {
    stored != [] && Lacks(s, stored[|stored| - 1], owners, user)
  }

  /** The rows after saving other chapters than the stored ones, all of them or those up to the first that stops it:
      what was there stays, and those the book is shared with get a right to read, each on those stored chapters of the
      saving user's on which they had none. */
  lemma ChapterRowsAre(s: Shelf, listing: seq<Chapter>, chapters: seq<Chapter>, owners: map<nat, nat>, user: nat,
                       k: Key)
    ensures var (after, ok) := SetChapters(s, listing, chapters, owners, user);
      && (listing == chapters ==> ok)
      && after.owner == s.owner && after.holders == s.holders
      && (listing == chapters ==> after == s)
      && (listing != chapters ==>
            && after.chapters <= chapters
            && (after.chapters == chapters || StopsAtLast(s, after.chapters, owners, user))
            && (forall i :: 0 <= i < |after.chapters| - 1 ==> !Lacks(s, chapters[i], owners, user))
            && (ok <==> forall i :: 0 <= i < |chapters| ==> !Lacks(s, chapters[i], owners, user))
            && (k in after.rows <==>
                  k in s.rows
                  || (k.1 in s.holders && k.0 in owners && owners[k.0] == user
                      && exists i :: 0 <= i < |after.chapters| && after.chapters[i].text == k.0))
            && (k in after.rows ==> after.rows[k] == if k in s.rows then s.rows[k] else Entry(Read, "")))
  {
    if listing != chapters {
      var stored := chapters[..StoredCount(s, chapters, owners, user)];
      OpenedAt(s, stored, owners, user, k);
      StoredChaptersAre(s, chapters, owners, user);
      hide StoredCount, Stops, Opened;
      forall c: Chapter ensures Stops(s, c, owners, user) <==> Lacks(s, c, owners, user) {
        StopsIff(s, c, owners, user);
      }
    }
  }

  lemma StopsIff(s: Shelf, c: Chapter, owners: map<nat, nat>, user: nat)
    ensures Stops(s, c, owners, user) <==> Lacks(s, c, owners, user)
  {
  }

  lemma {:induction false} StoredChaptersAre(s: Shelf, chapters: seq<Chapter>, owners: map<nat, nat>, user: nat)
    ensures var n := StoredCount(s, chapters, owners, user);
      && (n == |chapters| || (n > 0 && Stops(s, chapters[n - 1], owners, user)))
      && forall i :: 0 <= i < n - 1 ==> !Stops(s, chapters[i], owners, user)
    decreases |chapters|
  {
    if chapters != [] && !Stops(s, chapters[0], owners, user) {
      StoredChaptersAre(s, chapters[1..], owners, user);
      assert forall i :: 1 <= i < |chapters| ==> chapters[i] == chapters[1..][i - 1];
    }
    hide Stops;
  }

  /** No longer sharing with someone takes no right away. */
  lemma UnsharedRowsAre(s: Shelf, holder: Holder, h: Holder)
    ensures var after := Unshare(s, holder);
      && after.owner == s.owner && after.chapters == s.chapters && after.rows == s.rows
      && (h in after.holders <==> h in s.holders && h != holder)
  {
  }

  /** The rows after sharing: a holder new to the book gets a right to read on the chapters of the owner's where there
      was none; nothing else changes. */
  lemma SharedRowsAre(s: Shelf, holder: Holder, exist: bool, owners: map<nat, nat>, k: Key)
    ensures var after := Share(s, holder, exist, owners);
      && after.owner == s.owner && after.chapters == s.chapters
      && (holder !in s.holders && !exist ==> after == s)
      && (holder in s.holders || exist ==>
            && after.holders == s.holders + {holder}
            && (k in after.rows <==>
                  k in s.rows
                  || (k.1 == holder && k.0 in owners && owners[k.0] == s.owner
                      && exists i :: 0 <= i < |s.chapters| && s.chapters[i].text == k.0))
            && (k in after.rows ==> after.rows[k] == if k in s.rows then s.rows[k] else Entry(Read, "")))
  {
  }

  /** Everyone the book is shared with has a right on every chapter that belongs to the book's owner. */
  ghost predicate Closed(s: Shelf, owners: map<nat, nat>) {
    forall d: nat, h: Holder ::
      Texts(s.chapters, d) && IsOwner(owners, d, s.owner) && h in s.holders ==> (d, h) in s.rows
  }

  datatype Save =
    | SavesChapters(listing: seq<Chapter>, chapters: seq<Chapter>)
    | Shares(holder: Holder, exist: bool)
    | Unshares(holder: Holder)

  predicate Lists(s: Shelf, e: Save) {
    e.SavesChapters? ==> multiset(e.listing) == multiset(s.chapters)
  }

  function Saved(s: Shelf, e: Save, owners: map<nat, nat>): Shelf {
    match e
    case SavesChapters(listing, chapters) => SetChapters(s, listing, chapters, owners, s.owner).0
    case Shares(holder, exist) => Share(s, holder, exist, owners)
    case Unshares(holder) => Unshare(s, holder)
  }

  lemma SaveKeepsClosed(s: Shelf, e: Save, owners: map<nat, nat>)
    requires Closed(s, owners) && Lists(s, e)
    ensures Closed(Saved(s, e, owners), owners)
  {
    var t := Saved(s, e, owners);
    forall d: nat, h: Holder | Texts(t.chapters, d) && IsOwner(owners, d, t.owner) && h in t.holders
      ensures (d, h) in t.rows
    {
      if e.SavesChapters? && e.listing != e.chapters {
        OwnersSaveIsWhole(s, e.chapters, owners);
        assert e.chapters[..|e.chapters|] == e.chapters;
        OpenedAt(s, e.chapters, owners, s.owner, (d, h));
      }
      if e.Shares? && h == e.holder && t != s {
        var i :| 0 <= i < |s.chapters| && s.chapters[i].text == d;
        assert (s.chapters[i].text, h) in t.rows;
      }
    }
  }

  function Run(s: Shelf, es: seq<Save>, owners: map<nat, nat>): Shelf
    decreases |es|
  {
    if es == [] then s else Run(Saved(s, es[0], owners), es[1..], owners)
  }

  ghost predicate Valid(s: Shelf, es: seq<Save>, owners: map<nat, nat>)
    decreases |es|
  {
    es != [] ==> Lists(s, es[0]) && Valid(Saved(s, es[0], owners), es[1..], owners)
  }

  /** In any run of saves by the book's owner, everyone the book is shared with can open the owner's chapters. */
  lemma {:induction false} RunKeepsClosed(s: Shelf, es: seq<Save>, owners: map<nat, nat>)
    requires Closed(s, owners) && Valid(s, es, owners)
    ensures Closed(Run(s, es, owners), owners)
    decreases |es|
  {
    if es != [] {
      SaveKeepsClosed(s, es[0], owners);
      RunKeepsClosed(Saved(s, es[0], owners), es[1..], owners);
    }
  }

  /** A collaborator's save keeps this up exactly when nothing has changed, or nobody lacks a right on a chapter of the
      owner's among those that are stored: all of them, or those up to the first that raises. */
  lemma CollaboratorKeepsClosedIff(s: Shelf, listing: seq<Chapter>, chapters: seq<Chapter>, owners: map<nat, nat>,
                                   user: nat)
    requires Closed(s, owners) && multiset(listing) == multiset(s.chapters) && user != s.owner
    ensures var stored := chapters[..StoredCount(s, chapters, owners, user)];
      Closed(SetChapters(s, listing, chapters, owners, user).0, owners)
      <==> listing == chapters
           || forall d: nat, h: Holder ::
                Texts(stored, d) && IsOwner(owners, d, s.owner) && h in s.holders ==> (d, h) in s.rows
  {
    var stored := chapters[..StoredCount(s, chapters, owners, user)];
    var t := SetChapters(s, listing, chapters, owners, user).0;
    if listing != chapters {
      forall d: nat, h: Holder | IsOwner(owners, d, s.owner) ensures (d, h) in t.rows <==> (d, h) in s.rows {
        OpenedAt(s, stored, owners, user, (d, h));
      }
    }
  }

  /** User 2 saves a chapter of their own and one of the owner's: the first raises, so the second, on which user 2 has
      no right, is never stored. */
  lemma CollaboratorIsCutShort(a: Chapter, b: Chapter)
    requires a.text == 10 && b.text == 11
    ensures var owners: map<nat, nat> := map[10 := 2, 11 := 1];
      var s := Shelf(1, [], {User(2)}, map[]);
      var (t, ok) := SetChapters(s, [], [a, b], owners, 2);
      && !ok && t.chapters == [a] && t.rows == map[(10, User(2)) := Entry(Read, "")]
      && Closed(t, owners) && !Closed(s.(chapters := [a, b]), owners)
  {
    var owners: map<nat, nat> := map[10 := 2, 11 := 1];
    var s := Shelf(1, [], {User(2)}, map[]);
    var both := [a, b];
    assert Stops(s, both[0], owners, 2);
    assert both[..1] == [a];
    var needed := Opened(s, [a], owners, 2);
    assert [a][..0] == [] && Opened(s, [], owners, 2) == {};
    assert needed == {(10, User(2))};
    assert Texts(both, 11) by {
      assert both[1].text == 11;
    }
  }

  lemma OpenedNext(s: Shelf, chapters: seq<Chapter>, owners: map<nat, nat>, user: nat, i: nat)
    requires i < |chapters|
    ensures chapters[..i + 1] == chapters[..i] + [chapters[i]]
    ensures WithRead(WithRead(s.rows, Opened(s, chapters[..i], owners, user)),
                     OpenedFor(s.holders, chapters[i], owners, user))
         == WithRead(s.rows, Opened(s, chapters[..i + 1], owners, user))
  {
    assert chapters[..i + 1][..i] == chapters[..i];
    WithReadTwice(s.rows, Opened(s, chapters[..i], owners, user), OpenedFor(s.holders, chapters[i], owners, user));
    hide WithRead, OpenedFor;
  }

  /** The book owner's row is there during the loop exactly when it was before, or comes from the sharing. */
  lemma OwnersRowAt(s: Shelf, chapters: seq<Chapter>, owners: map<nat, nat>, user: nat, d: nat)
    ensures var k := (d, User(s.owner));
      User(s.owner) in s.holders || (k in WithRead(s.rows, Opened(s, chapters, owners, user)) <==> k in s.rows)
  {
    OpenedAt(s, chapters, owners, user, (d, User(s.owner)));
  }

  lemma WithReadTwice(rows: Table, a: set<Key>, b: set<Key>)
    ensures WithRead(WithRead(rows, a), b) == WithRead(rows, a + b)
  {
  }

  // ---- The rows

  class Bookshelf {
    const owners: map<nat, nat>
    const owner: nat
    var chapters: seq<Chapter>
    var holders: set<Holder>
    var rows: Table

    constructor (ownerOf: map<nat, nat>, user: nat, table: Table)
      ensures owners == ownerOf && State() == Shelf(user, [], {}, table)
    {
      owners, owner, chapters, holders, rows := ownerOf, user, [], {}, table;
    }

    ghost function State(): Shelf
      reads this
    {
      Shelf(owner, chapters, holders, rows)
    }

    method GiveRead(d: nat, h: Holder)
      modifies this`rows
      ensures rows == WithRead(old(rows), {(d, h)})
    {
      if (d, h) !in rows {
        rows := rows[(d, h) := Entry(Read, "")];
      }
    }

    /** One chapter, opened to everyone in `bars`; false when the owner of the book lacks a right on it. */
    method OpenChapter(d: nat, bars: seq<Holder>, user: nat) returns (ok: bool)
      requires holders == set h | h in bars
      modifies this`rows
      ensures rows == WithRead(old(rows), set h | h in holders :: (d, h))
      ensures ok == (user == owner || (d, User(owner)) in old(rows) || User(owner) in holders)
    {
      ghost var was := rows;
      assert rows == WithRead(was, {});
      for j := 0 to |bars|
        invariant rows == WithRead(was, set h | h in bars[..j] :: (d, h))
      {
        GiveRead(d, bars[j]);
        WithReadTwice(was, set h | h in bars[..j] :: (d, h), {(d, bars[j])});
        assert bars[..j + 1] == bars[..j] + [bars[j]];
        assert (set h | h in bars[..j + 1] :: (d, h)) == (set h | h in bars[..j] :: (d, h)) + {(d, bars[j])};
      }
      assert bars[..|bars|] == bars;
      assert (set h | h in bars :: (d, h)) == set h | h in holders :: (d, h);
      ok := user == owner || (d, User(owner)) in rows;
    }

    /** One turn of the loop. */
    method SaveChapter(c: Chapter, bars: seq<Holder>, user: nat) returns (ok: bool)
      requires holders == set h | h in bars
      modifies this`chapters, this`rows
      ensures chapters == old(chapters) + [c] && rows == WithRead(old(rows), OpenedFor(holders, c, owners, user))
      ensures ok == !(user != owner && IsOwner(owners, c.text, user) && (c.text, User(owner)) !in old(rows)
                      && User(owner) !in holders)
    {
      chapters := chapters + [c];
      ok := true;
      if IsOwner(owners, c.text, user) {
        ok := OpenChapter(c.text, bars, user);
      }
    }

    method SaveChapters(listing: seq<Chapter>, given: seq<Chapter>, bars: seq<Holder>, user: nat) returns (ok: bool)
      requires holders == set h | h in bars
      modifies this
      ensures (State(), ok) == SetChapters(old(State()), listing, given, owners, user)
    {
      if listing == given {
        return true;
      }
      ghost var was := State();
      chapters, ok := [], true;
      var i := 0;
      assert WithRead(was.rows, {}) == was.rows;
      while i < |given| && ok
        invariant 0 <= i <= |given| && chapters == given[..i] && holders == was.holders
        invariant rows == WithRead(was.rows, Opened(was, given[..i], owners, user))
        invariant forall j :: 0 <= j < (if ok then i else i - 1) ==> !Stops(was, given[j], owners, user)
        invariant !ok ==> i > 0 && Stops(was, given[i - 1], owners, user)
      {
        OpenedNext(was, given, owners, user, i);
        OwnersRowAt(was, given[..i], owners, user, given[i].text);
        hide WithRead, OpenedFor, Opened;
        ok := SaveChapter(given[i], bars, user);
        i := i + 1;
      }
      StoredUntil(was, given, owners, user, if ok then i else i - 1);
    }

    method OpenTo(holder: Holder)
      modifies this`rows
      ensures rows == WithRead(old(rows), OpenedTo(holder, chapters, |chapters|, owners, owner))
    {
      ghost var was := rows;
      assert OpenedTo(holder, chapters, 0, owners, owner) == {};
      assert rows == WithRead(was, {});
      hide OpenedTo, WithRead, IsOwner;
      for i := 0 to |chapters|
        invariant rows == WithRead(was, OpenedTo(holder, chapters, i, owners, owner))
      {
        OpenedToNext(holder, chapters, i, owners, owner);
        if IsOwner(owners, chapters[i].text, owner) {
          GiveRead(chapters[i].text, holder);
          WithReadTwice(was, OpenedTo(holder, chapters, i, owners, owner), {(chapters[i].text, holder)});
        }
      }
    }

    method ShareWith(holder: Holder, exist: bool)
      modifies this
      ensures State() == Share(old(State()), holder, exist, owners)
    {
      if holder !in holders {
        if !exist {
          return;
        }
        holders := holders + {holder};
      }
      OpenTo(holder);
      hide OpenedTo, WithRead;
    }
  }
}
