/** The document store's claim loop as an object. What each find returns, its instant
    and the random tokens come as turns. */
module MongoStore {
  import opened Protocol
  import opened Outbox
  import opened OutboxSafety
  import OutboxEffects
  import opened Relay
  import opened MongoClaims

  /** Leases of one millisecond to a day. */
  predicate ValidArgs(limit: int, lease: int) { 1 <= limit <= 1000 && 1_000 <= lease <= 86_400_000_000 }

  /** Every corrupt document met was set aside. */
  predicate Uninterrupted(b: Book, turns: seq<Turn>, lease: int)
    decreases |turns|
  {
    turns == [] || (GoesOn(b, turns[0], lease) && Uninterrupted(Taken(b, turns[0], lease), turns[1..], lease))
  }

  class Store {
    var rows: Table
    ghost var book: Book

    ghost predicate Valid()
      reads this
    {
      rows == book.rows
    }

    /** FindOneAndUpdate: holds the document whatever its content. */
    method FindOneAndUpdate(u: Turn, lease: int) returns (found: Row)
      requires Valid() && ValidClaimArgs(1, lease) && u.id in rows && MongoEligible(rows[u.id], u.now)
      modifies this
      ensures Valid() && book == Picked(old(book), u, lease)
      ensures u.id in rows && found == rows[u.id] == HeldRow(old(rows)[u.id], u.token, u.now, lease)
    {
      found := rows[u.id].(state := Publishing, token := Some(u.token), leaseUntil := Some(u.now + lease), nextAttempt := u.now + lease,
                           version := rows[u.id].version + 1, attempts := rows[u.id].attempts + 1);
      book := Picked(book, u, lease);
      rows := rows[u.id := found];
    }

    /** The conditional update that sets a corrupt document aside. */
    method Quarantine(c: Claim, now: int) returns (matched: bool)
      requires Valid()
      modifies this
      ensures Valid() && book == Apply(old(book), OpSettle(c, CORRUPT, now))
      ensures matched <==> CanSettle(old(rows), c, now)
      ensures matched ==>
        OutboxEffects.OnlyRow(old(rows), rows, c.id) && OutboxEffects.QuarantinedAs(old(rows)[c.id], rows[c.id], "invalid_immutable_content")
      ensures !matched ==> rows == old(rows)
    {
      matched := false;
      book := Apply(book, OpSettle(c, CORRUPT, now));
      if c.id != 0 && c.token != "" && c.version != 0 && c.id in rows {
        var r := rows[c.id];
        if r.token == Some(c.token) && r.version == c.version && r.state == Publishing && r.leaseUntil.Some? && r.leaseUntil.value > now {
          rows := rows[c.id := SettleRow(r, CORRUPT, now)];
          matched := true;
        }
      }
    }

    /** The loop takes the turns it is given; the claims it returns are exactly those it
        issues, one per intact document; it ends early when a quarantine fails. */
    method ClaimDue(limit: int, lease: int, turns: seq<Turn>) returns (claims: seq<Claim>, ok: bool)
      requires Valid() && (ValidArgs(limit, lease) ==> Loop(book, turns, lease) && |turns| <= limit)
      modifies this
      ensures Valid()
      ensures !ValidArgs(limit, lease) ==> !ok && claims == [] && book == old(book)
      ensures ValidArgs(limit, lease) ==>
        book == TakenAll(old(book), turns, lease) && book.issued == old(book).issued + claims && |claims| <= |turns|
      ensures ok <==> ValidArgs(limit, lease) && Uninterrupted(old(book), turns, lease)
    {
      hide Apply, Picked, Intact, IsFirst, MongoEligible, CanSettle;
      claims := [];
      if limit < 1 || limit > 1000 || lease < 1_000 || lease > 86_400_000_000 {
        return [], false;
      }
      assert turns[0..] == turns;
      assert book.issued + claims == book.issued;
      var i := 0;
      while i < |turns|
        invariant i <= |turns| && |claims| <= i && Valid() && Loop(book, turns[i..], lease)
        invariant TakenAll(book, turns[i..], lease) == TakenAll(old(book), turns, lease)
        invariant book.issued == old(book).issued + claims
        invariant Uninterrupted(book, turns[i..], lease) <==> Uninterrupted(old(book), turns, lease)
      {
        var u := turns[i];
        assert turns[i..][0] == u && turns[i..][1..] == turns[i + 1..];
        FoundOne(book, u);
        TurnIssues(book, u, lease);
        ghost var was := book;
        var row := FindOneAndUpdate(u, lease);
        var c := Claim(u.id, u.token, row.version, row.attempts, row.failures, u.now + lease, row.content);
        ClaimMatches(was, u, lease, row);
        if Intact(row) {
          claims := claims + [c];
        } else {
          var matched := Quarantine(c, u.asideAt);
          if !matched {
            assert turns[i + 1..] == [];
            return claims, false;
          }
        }
        i := i + 1;
      }
      assert turns[|turns|..] == [];
      return claims, true;
    }
  }

  lemma FoundOne(b: Book, u: Turn)
    requires IsFirst(b.rows, u.now, u.id)
    ensures u.id in b.rows && MongoEligible(b.rows[u.id], u.now)
  {
  }

  /** The claim built from the updated document is the one the model issues. */
  lemma ClaimMatches(b: Book, u: Turn, lease: int, row: Row)
    requires u.id in b.rows && row == HeldRow(b.rows[u.id], u.token, u.now, lease)
    ensures ClaimFor(b, u, lease) == Claim(u.id, u.token, row.version, row.attempts, row.failures, u.now + lease, row.content)
    ensures Intact(row) <==> Intact(b.rows[u.id])
  {
  }

  lemma TurnIssues(b: Book, u: Turn, lease: int)
    requires ValidClaimArgs(1, lease) && u.id in b.rows && MongoEligible(b.rows[u.id], u.now)
    ensures Picked(b, u, lease).issued == if Intact(b.rows[u.id]) then b.issued + [ClaimFor(b, u, lease)] else b.issued
    ensures Taken(b, u, lease).issued == Picked(b, u, lease).issued
  {
  }
}
