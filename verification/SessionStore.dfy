/**
 The `sessions` table (internal/store/sessions.go): one row per refresh token,
 linked to the row it was rotated from and grouped into families.

 The functions give the meaning of each SQL statement on the table; the class
 is the store itself, whose methods are proved to do exactly that.
 Clock readings are nanoseconds, columns hold whole Unix seconds.
 */
module SessionStore {
  import opened Prelude

  const SECOND: int := 1_000_000_000

  /** sha256 of a secret; equal only for equal secrets. */
  datatype Hash = Sha256(secret: string)

  datatype Session = Session(
    id: string,
    userId: int,
    refreshHash: Hash,
    familyId: string,
    parentId: Option<string>,   // NULL for the root of a family
    createdAt: int,
    expiresAt: int,
    revokedAt: Option<int>      // NULL while active
  ) {
    predicate Revoked() {
      revokedAt.Some?
    }

    /** Everything but the revocation mark: the columns no statement updates. */
    predicate SameIdentity(s: Session) {
      this == s.(revokedAt := revokedAt)
    }
  }

  type Table = map<string, Session>

  datatype CreateParams = CreateParams(
    id: string,
    userId: int,
    refreshHash: Hash,
    familyId: string,
    parentId: Option<string>,
    expiresAt: int              // nanoseconds
  )

  /** The constraints of the schema: primary key and the two foreign keys. */
  predicate Insertable(rows: Table, users: set<int>, p: CreateParams) {
    && p.id !in rows
    && p.userId in users
    && (p.parentId.Some? ==> p.parentId.value in rows)
  }

  function NewRow(p: CreateParams, now: int): Session {
    Session(p.id, p.userId, p.refreshHash, p.familyId, p.parentId,
            now / SECOND, p.expiresAt / SECOND, None)
  }

  function Inserted(rows: Table, users: set<int>, p: CreateParams, now: int): Table {
    if Insertable(rows, users, p) then rows[p.id := NewRow(p, now)] else rows
  }

  function MarkRevoked(s: Session, now: int): Session {
    if s.Revoked() then s else s.(revokedAt := Some(now / SECOND))
  }

  function SessionRevoked(rows: Table, id: string, now: int): Table {
    if id in rows then rows[id := MarkRevoked(rows[id], now)] else rows
  }

  function FamilyRevoked(rows: Table, familyId: string, now: int): Table {
    map id | id in rows ::
      if rows[id].familyId == familyId then MarkRevoked(rows[id], now) else rows[id]
  }

  function UserRevoked(rows: Table, userId: int, now: int): Table {
    map id | id in rows ::
      if rows[id].userId == userId then MarkRevoked(rows[id], now) else rows[id]
  }

  predicate HasChildren(rows: Table, parentId: string) {
    exists id :: id in rows && rows[id].parentId == Some(parentId)
  }

  /** No row disappears, no identity column changes, no revocation is undone. */
  ghost predicate Grows(before: Table, after: Table) {
    forall id :: id in before ==>
      && id in after
      && after[id].SameIdentity(before[id])
      && (before[id].Revoked() ==> after[id] == before[id])
  }

  lemma GrowsTransitive(a: Table, b: Table, c: Table)
    requires Grows(a, b) && Grows(b, c)
    ensures Grows(a, c)
  {
    forall id | id in a
      ensures id in c && c[id].SameIdentity(a[id]) && (a[id].Revoked() ==> c[id] == a[id])
    {
      assert id in b && b[id].SameIdentity(a[id]);
    }
  }

  lemma MarkingGrows(rows: Table, after: Table, now: int)
    requires after.Keys == rows.Keys
    requires forall id :: id in rows ==> after[id] == rows[id] || after[id] == MarkRevoked(rows[id], now)
    ensures Grows(rows, after)
  {
  }

  /** Every statement of the store lets the table grow and nothing else. */
  lemma StatementsGrow(rows: Table, users: set<int>, p: CreateParams, id: string, family: string, user: int, now: int)
    ensures Grows(rows, Inserted(rows, users, p, now))
    ensures Grows(rows, SessionRevoked(rows, id, now))
    ensures Grows(rows, FamilyRevoked(rows, family, now))
    ensures Grows(rows, UserRevoked(rows, user, now))
  {
    MarkingGrows(rows, SessionRevoked(rows, id, now), now);
    MarkingGrows(rows, FamilyRevoked(rows, family, now), now);
    MarkingGrows(rows, UserRevoked(rows, user, now), now);
  }

  /** The store: rows are inserted and marked in place. */
  class DB {
    var rows: Table
    var users: map<int, string>   // user id to role

    constructor ()
      ensures rows == map[] && users == map[]
    {
      rows, users := map[], map[];
    }

    method CreateSession(p: CreateParams, now: int) returns (ok: bool)
      modifies this`rows
      ensures ok == Insertable(old(rows), users.Keys, p)
      ensures rows == Inserted(old(rows), users.Keys, p, now)
      ensures ok <==> p.id !in old(rows) && p.userId in users && (p.parentId.Some? ==> p.parentId.value in old(rows))
      ensures rows == if !ok then old(rows) else
                old(rows)[p.id := Session(p.id, p.userId, p.refreshHash, p.familyId, p.parentId,
                                          now / 1_000_000_000, p.expiresAt / 1_000_000_000, None)]
    {
      ok := p.id !in rows && p.userId in users && (p.parentId.Some? ==> p.parentId.value in rows);
      if ok {
        rows := rows[p.id := Session(p.id, p.userId, p.refreshHash, p.familyId, p.parentId,
                                     now / SECOND, p.expiresAt / SECOND, None)];
      }
    }

    method SessionByID(id: string) returns (s: Option<Session>)
      ensures s.Some? <==> id in rows
      ensures s.Some? ==> s.value == rows[id]
    {
      s := if id in rows then Some(rows[id]) else None;
    }

    method RevokeSession(id: string, now: int)
      modifies this`rows
      ensures rows == SessionRevoked(old(rows), id, now)
      ensures rows.Keys == old(rows).Keys
      ensures forall k :: k in rows ==>
                rows[k] == if k == id && old(rows)[k].revokedAt == None then old(rows)[k].(revokedAt := Some(now / 1_000_000_000))
                           else old(rows)[k]
    {
      if id in rows && rows[id].revokedAt == None {
        rows := rows[id := rows[id].(revokedAt := Some(now / SECOND))];
      }
    }

    method RevokeFamily(familyId: string, now: int)
      modifies this`rows
      ensures rows == FamilyRevoked(old(rows), familyId, now)
      ensures rows.Keys == old(rows).Keys
      ensures forall k :: k in rows ==>
                rows[k] == if old(rows)[k].familyId == familyId && old(rows)[k].revokedAt == None
                           then old(rows)[k].(revokedAt := Some(now / 1_000_000_000)) else old(rows)[k]
    {
      rows := map id | id in rows ::
        if rows[id].familyId == familyId && rows[id].revokedAt == None
        then rows[id].(revokedAt := Some(now / SECOND)) else rows[id];
    }

    method RevokeAllForUser(userId: int, now: int)
      modifies this`rows
      ensures rows == UserRevoked(old(rows), userId, now)
      ensures rows.Keys == old(rows).Keys
      ensures forall k :: k in rows ==>
                rows[k] == if old(rows)[k].userId == userId && old(rows)[k].revokedAt == None
                           then old(rows)[k].(revokedAt := Some(now / 1_000_000_000)) else old(rows)[k]
    {
      rows := map id | id in rows ::
        if rows[id].userId == userId && rows[id].revokedAt == None
        then rows[id].(revokedAt := Some(now / SECOND)) else rows[id];
    }

    method HasSessionChildren(parentId: string) returns (has: bool)
      ensures has <==> HasChildren(rows, parentId)
      ensures has <==> exists id :: id in rows && rows[id].parentId == Some(parentId)
    {
      var children := set id | id in rows && rows[id].parentId == Some(parentId);
      has := |children| > 0;
      if HasChildren(rows, parentId) {
        ghost var id :| id in rows && rows[id].parentId == Some(parentId);
        assert id in children;
      } else {
        assert children == {};
      }
    }

    method UserByID(id: int) returns (role: Option<string>)
      ensures role == if id in users then Some(users[id]) else None
    {
      role := if id in users then Some(users[id]) else None;
    }
  }
}
