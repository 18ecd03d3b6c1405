/** Accepting an invitation: the rights the invite holds go over to the user (`UserInvite.apply`). */
module Invites {
  import opened Prelude
  import opened Access
  import opened Authorization

  datatype Holder = User(id: nat) | Invite(id: nat)

  /** One row for a document and a holder, as the unique constraint has it. */
  type Key = (nat, Holder)

  datatype Entry = Entry(rights: Rights, path: string)

  type Table = map<Key, Entry>

  /** An existing right changes unless the invite only reads or the user already writes. */
  function Merge(held: Entry, invited: Entry): Entry {
    if invited.rights == Read || held.rights == Write then held else held.(rights := invited.rights)
  }

  predicate Invited(rows: Table, invite: nat, d: nat) {
    (d, Invite(invite)) in rows
  }

  predicate IsOwner(owners: map<nat, nat>, d: nat, user: nat) {
    d in owners && owners[d] == user
  }

  /** The table afterwards, whatever the order in which the rows were taken. */
  function Applied(rows: Table, owners: map<nat, nat>, invite: nat, user: nat): Table {
    map k | k in rows.Keys + (set r | r in rows && r.1 == Invite(invite) :: (r.0, User(user)))
            && k.1 != Invite(invite)
            && (k in rows || !IsOwner(owners, k.0, user))
      :: if k in rows then (if k.1 == User(user) && Invited(rows, invite, k.0)
                            then Merge(rows[k], rows[(k.0, Invite(invite))]) else rows[k])
         else rows[(k.0, Invite(invite))]
  }

  predicate CanOpen(rows: Table, owners: map<nat, nat>, user: nat, d: nat) {
    IsOwner(owners, d, user) || (d, User(user)) in rows
  }

  lemma AppliedAt(rows: Table, owners: map<nat, nat>, invite: nat, user: nat, d: nat)
    ensures (d, User(user)) in Applied(rows, owners, invite, user)
       <==> (d, User(user)) in rows || (Invited(rows, invite, d) && !IsOwner(owners, d, user))
  {
    if Invited(rows, invite, d) {
      assert (d, Invite(invite)) in rows;
    }
  }

  /** The invite is left with nothing, the user can open exactly the old documents and the invited ones, and nobody
      else's rights change. */
  lemma AccessIsConserved(rows: Table, owners: map<nat, nat>, invite: nat, user: nat)
    ensures var after := Applied(rows, owners, invite, user);
      && (forall k :: k in after ==> k.1 != Invite(invite))
      && (forall d :: CanOpen(after, owners, user, d)
                 <==> CanOpen(rows, owners, user, d) || Invited(rows, invite, d))
      && (forall k: Key :: k.1 != Invite(invite) && k.1 != User(user) ==>
            (k in after <==> k in rows) && (k in after ==> after[k] == rows[k]))
  {
    var after := Applied(rows, owners, invite, user);
    forall d ensures CanOpen(after, owners, user, d) <==> CanOpen(rows, owners, user, d) || Invited(rows, invite, d) {
      AppliedAt(rows, owners, invite, user, d);
    }
  }

  /** What the user holds on a document afterwards, in every case: a right of their own gives way to the invited one
      unless that only reads or their own already writes; without one, the invited row becomes theirs unless they are
      the owner. */
  lemma RightIs(rows: Table, owners: map<nat, nat>, invite: nat, user: nat, d: nat)
    ensures var after := Applied(rows, owners, invite, user);
      var mine, invited := (d, User(user)), (d, Invite(invite));
      && (mine in rows ==> mine in after && after[mine].path == rows[mine].path)
      && (mine in rows ==>
            after[mine].rights == if invited in rows && rows[invited].rights != Read && rows[mine].rights != Write
                                  then rows[invited].rights else rows[mine].rights)
      && (mine !in rows && invited in rows && !(d in owners && owners[d] == user) ==>
            mine in after && after[mine] == rows[invited])
      && (mine !in rows && (invited !in rows || (d in owners && owners[d] == user)) ==> mine !in after)
  {
    AppliedAt(rows, owners, invite, user, d);
  }

  /** A right the user already has never gets worse exactly when the invite only reads, the user writes already, or the
      invited right ranks no lower. */
  lemma NeverWorseIff(rows: Table, owners: map<nat, nat>, invite: nat, user: nat, d: nat)
    requires (d, User(user)) in rows
    ensures var after := Applied(rows, owners, invite, user);
      && (d, User(user)) in after
      && after[(d, User(user))].path == rows[(d, User(user))].path
      && (Rank(after[(d, User(user))].rights) <= Rank(rows[(d, User(user))].rights)
          <==> (Invited(rows, invite, d) ==>
                  var invited := rows[(d, Invite(invite))].rights;
                  var held := rows[(d, User(user))].rights;
                  invited == Read || held == Write || Rank(invited) <= Rank(held)))
      && (rows[(d, User(user))].rights == Write ==> after[(d, User(user))] == rows[(d, User(user))])
  {
    AppliedAt(rows, owners, invite, user, d);
  }

  /** Contrary to the comment in the code, an invite to review takes tracked writing away. */
  lemma ReviewInviteDowngrades(owners: map<nat, nat>)
    ensures var rows: Table := map[(7, User(1)) := Entry(WriteTracked, ""), (7, Invite(2)) := Entry(Review, "")];
      Applied(rows, owners, 2, 1) == map[(7, User(1)) := Entry(Review, "")]
  {
    var rows: Table := map[(7, User(1)) := Entry(WriteTracked, ""), (7, Invite(2)) := Entry(Review, "")];
    var after := Applied(rows, owners, 2, 1);
    AppliedAt(rows, owners, 2, 1, 7);
    forall k | k in after ensures k == (7, User(1)) {
    }
    assert after[(7, User(1))] == Entry(Review, "");
  }

  // ---- The rows

  class AccessRights {
    var rows: Table
    const owners: map<nat, nat>

    constructor (table: Table, ownerOf: map<nat, nat>)
      ensures rows == table && owners == ownerOf
    {
      rows, owners := table, ownerOf;
    }

    /** A second row for the same document and holder would be an integrity error. */
    method Create(k: Key, e: Entry)
      requires k !in rows
      modifies this
      ensures rows == old(rows)[k := e]
    {
      rows := rows[k := e];
    }

    /** One row of the invite is merged, dropped or set aside for later. */
    method TakeOver(d: nat, invite: nat, user: nat) returns (transfer: Option<Entry>)
      requires Invited(rows, invite, d)
      modifies this
      ensures rows == Taken(old(rows), d, invite, user)
      ensures transfer == ToTransfer(old(rows), owners, d, invite, user)
    {
      var right := rows[(d, Invite(invite))];
      var k := (d, User(user));
      transfer := None;
      if k in rows {
        if right.rights != Read && rows[k].rights != Write {
          rows := rows[k := rows[k].(rights := right.rights)];
        }
      } else if !IsOwner(owners, d, user) {
        transfer := Some(right);
      }
      rows := rows - {(d, Invite(invite))};
    }

    /** `apply`: `documents` are those of the invite's rows, in any order. */
    method Apply(invite: nat, user: nat, documents: seq<nat>)
      requires Distinct(documents) && forall d :: d in documents <==> Invited(rows, invite, d)
      modifies this
      ensures rows == Applied(old(rows), owners, invite, user)
    {
      ghost var was := rows;
      var transfers: seq<(nat, Entry)> := [];
      var i := 0;
      while i < |documents|
        invariant 0 <= i <= |documents|
        invariant Partly(was, rows, invite, user, documents, i)
        invariant Waiting(was, owners, invite, user, documents, i, transfers)
      {
        var d := documents[i];
        TakingKeepsPartly(was, rows, owners, invite, user, documents, i, transfers);
        var transfer := TakeOver(d, invite, user);
        if transfer.Some? {
          transfers := transfers + [(d, transfer.value)];
        }
        i := i + 1;
      }
      ghost var merged := rows;
      var j := 0;
      while j < |transfers|
        invariant 0 <= j <= |transfers|
        invariant rows == Added(merged, user, transfers[..j])
      {
        NotYetThere(was, merged, owners, invite, user, documents, transfers, j);
        Create((transfers[j].0, User(user)), transfers[j].1);
        j := j + 1;
      }
      assert transfers[..j] == transfers;
      AddedIsApplied(was, merged, owners, invite, user, documents, transfers);
    }
  }

  function Taken(rows: Table, d: nat, invite: nat, user: nat): Table
    requires Invited(rows, invite, d)
  {
    var k := (d, User(user));
    (if k in rows then rows[k := Merge(rows[k], rows[(d, Invite(invite))])] else rows) - {(d, Invite(invite))}
  }

  function ToTransfer(rows: Table, owners: map<nat, nat>, d: nat, invite: nat, user: nat): Option<Entry>
    requires Invited(rows, invite, d)
  {
    if (d, User(user)) in rows || IsOwner(owners, d, user) then None else Some(rows[(d, Invite(invite))])
  }

  /** The first `i` of the invite's rows have been taken. */
  ghost predicate Partly(was: Table, rows: Table, invite: nat, user: nat, documents: seq<nat>, i: nat)
    requires i <= |documents|
  {
    && (forall k :: k in rows <==> k in was && !(k.1 == Invite(invite) && k.0 in documents[..i]))
    && (forall k :: k in rows ==>
          rows[k] == if k.1 == User(user) && k.0 in documents[..i] && Invited(was, invite, k.0)
                     then Merge(was[k], was[(k.0, Invite(invite))]) else was[k])
  }

  /** The rows set aside are those of documents the user neither had nor owns, each once. */
  ghost predicate Waiting(was: Table, owners: map<nat, nat>, invite: nat, user: nat, documents: seq<nat>, i: nat,
                          transfers: seq<(nat, Entry)>)
    requires i <= |documents|
  {
    && (forall t :: 0 <= t < |transfers| ==>
          && transfers[t].0 in documents[..i] && Invited(was, invite, transfers[t].0)
          && Some(transfers[t].1) == ToTransfer(was, owners, transfers[t].0, invite, user))
    && (forall d :: d in documents[..i] && Invited(was, invite, d) && ToTransfer(was, owners, d, invite, user).Some? ==>
          exists t :: 0 <= t < |transfers| && transfers[t].0 == d)
    && (forall s, t :: 0 <= s < t < |transfers| ==> transfers[s].0 != transfers[t].0)
  }

  function Added(rows: Table, user: nat, transfers: seq<(nat, Entry)>): Table
    decreases |transfers|
  {
    if transfers == [] then rows
    else
      var last := transfers[|transfers| - 1];
      Added(rows, user, transfers[..|transfers| - 1])[(last.0, User(user)) := last.1]
  }

  lemma TakingKeepsPartly(was: Table, rows: Table, owners: map<nat, nat>, invite: nat, user: nat, documents: seq<nat>,
                          i: nat, transfers: seq<(nat, Entry)>)
    requires i < |documents| && Distinct(documents) && Invited(was, invite, documents[i])
    requires Partly(was, rows, invite, user, documents, i)
    requires Waiting(was, owners, invite, user, documents, i, transfers)
    ensures Invited(rows, invite, documents[i])
    ensures Partly(was, Taken(rows, documents[i], invite, user), invite, user, documents, i + 1)
    ensures var t := ToTransfer(rows, owners, documents[i], invite, user);
      Waiting(was, owners, invite, user, documents, i + 1,
              if t.Some? then transfers + [(documents[i], t.value)] else transfers)
  {
    TakingKeepsWaiting(was, owners, invite, user, documents, i, transfers);
    hide Waiting;
    TakenIsAsBefore(was, rows, invite, user, documents, i);
    TakingKeepsRows(was, rows, invite, user, documents, i);
  }

  /** Neither of the two rows in question has been touched before. */
  lemma TakenIsAsBefore(was: Table, rows: Table, invite: nat, user: nat, documents: seq<nat>, i: nat)
    requires i < |documents| && Distinct(documents) && Invited(was, invite, documents[i])
    requires Partly(was, rows, invite, user, documents, i)
    ensures documents[i] !in documents[..i]
    ensures var k, u := (documents[i], Invite(invite)), (documents[i], User(user));
      k in rows && rows[k] == was[k] && (u in rows <==> u in was) && (u in rows ==> rows[u] == was[u])
  {
    assert documents[i] !in documents[..i];
    assert (documents[i], Invite(invite)).0 == documents[i];
  }

  lemma TakingKeepsRows(was: Table, rows: Table, invite: nat, user: nat, documents: seq<nat>, i: nat)
    requires i < |documents| && Distinct(documents) && Invited(was, invite, documents[i])
    requires Partly(was, rows, invite, user, documents, i) && Invited(rows, invite, documents[i])
    ensures Partly(was, Taken(rows, documents[i], invite, user), invite, user, documents, i + 1)
  {
    TakenIsAsBefore(was, rows, invite, user, documents, i);
    hide Distinct, Merge;
    assert documents[..i + 1] == documents[..i] + [documents[i]];
  }

  lemma TakingKeepsWaiting(was: Table, owners: map<nat, nat>, invite: nat, user: nat, documents: seq<nat>,
                           i: nat, transfers: seq<(nat, Entry)>)
    requires i < |documents| && Distinct(documents) && Invited(was, invite, documents[i])
    requires Waiting(was, owners, invite, user, documents, i, transfers)
    ensures var t := ToTransfer(was, owners, documents[i], invite, user);
      Waiting(was, owners, invite, user, documents, i + 1,
              if t.Some? then transfers + [(documents[i], t.value)] else transfers)
  {
    hide ToTransfer, IsOwner;
    var d := documents[i];
    var t := ToTransfer(was, owners, d, invite, user);
    var more := if t.Some? then transfers + [(d, t.value)] else transfers;
    assert d !in documents[..i];
    assert documents[..i + 1] == documents[..i] + [d];
    forall e | e in documents[..i + 1] && Invited(was, invite, e) && ToTransfer(was, owners, e, invite, user).Some?
      ensures exists j :: 0 <= j < |more| && more[j].0 == e
    {
      if e == d {
        assert more[|transfers|].0 == d;
        assert 0 <= |transfers| < |more|;
      } else {
        var j :| 0 <= j < |transfers| && transfers[j].0 == e;
        assert more[j].0 == e;
      }
    }
  }

  lemma {:induction false} AddedAt(rows: Table, user: nat, transfers: seq<(nat, Entry)>, k: Key)
    requires forall s, t :: 0 <= s < t < |transfers| ==> transfers[s].0 != transfers[t].0
    ensures k in Added(rows, user, transfers)
       <==> k in rows || exists t :: 0 <= t < |transfers| && k == (transfers[t].0, User(user))
    ensures forall t :: 0 <= t < |transfers| && k == (transfers[t].0, User(user)) ==>
              Added(rows, user, transfers)[k] == transfers[t].1
    ensures k in rows && (forall t :: 0 <= t < |transfers| ==> k != (transfers[t].0, User(user))) ==>
              Added(rows, user, transfers)[k] == rows[k]
    decreases |transfers|
  {
    if transfers != [] {
      AddedAt(rows, user, transfers[..|transfers| - 1], k);
    }
  }

  /** No row is created twice. */
  lemma NotYetThere(was: Table, rows: Table, owners: map<nat, nat>, invite: nat, user: nat, documents: seq<nat>,
                    transfers: seq<(nat, Entry)>, j: nat)
    requires j < |transfers|
    requires Partly(was, rows, invite, user, documents, |documents|)
    requires Waiting(was, owners, invite, user, documents, |documents|, transfers)
    ensures (transfers[j].0, User(user)) !in Added(rows, user, transfers[..j])
    ensures Added(rows, user, transfers[..j + 1])
         == Added(rows, user, transfers[..j])[(transfers[j].0, User(user)) := transfers[j].1]
  {
    AddedAt(rows, user, transfers[..j], (transfers[j].0, User(user)));
    assert transfers[..j + 1][..j] == transfers[..j];
  }

  lemma AddedIsApplied(was: Table, rows: Table, owners: map<nat, nat>, invite: nat, user: nat, documents: seq<nat>,
                       transfers: seq<(nat, Entry)>)
    requires forall d :: d in documents <==> Invited(was, invite, d)
    requires Partly(was, rows, invite, user, documents, |documents|)
    requires Waiting(was, owners, invite, user, documents, |documents|, transfers)
    ensures Added(rows, user, transfers) == Applied(was, owners, invite, user)
  {
    assert documents[..|documents|] == documents;
    var added, applied := Added(rows, user, transfers), Applied(was, owners, invite, user);
    forall k ensures k in added <==> k in applied
      ensures k in added && k in applied ==> added[k] == applied[k]
    {
      AddedAt(rows, user, transfers, k);
      AddedKey(was, rows, owners, invite, user, documents, transfers, k);
    }
  }

  lemma AddedKey(was: Table, rows: Table, owners: map<nat, nat>, invite: nat, user: nat, documents: seq<nat>,
                 transfers: seq<(nat, Entry)>, k: Key)
    requires forall d :: d in documents <==> Invited(was, invite, d)
    requires Partly(was, rows, invite, user, documents, |documents|)
    requires Waiting(was, owners, invite, user, documents, |documents|, transfers)
    ensures var added, applied := Added(rows, user, transfers), Applied(was, owners, invite, user);
      (k in added <==> k in applied) && (k in added ==> added[k] == applied[k])
  {
    assert documents[..|documents|] == documents;
    AddedAt(rows, user, transfers, k);
    if k.1 == User(user) {
      AppliedAt(was, owners, invite, user, k.0);
      assert k == (k.0, User(user));
    }
    hide Added;
  }
}
