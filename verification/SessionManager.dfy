/** Access tokens (internal/auth/jwt.go) as the claims they carry. */
module AccessTokens {
  import opened Prelude
  import opened SessionStore

  const ACCESS_TTL: int := 15 * 60 * SECOND

  datatype Subject = Access | Setup

  /** A NumericDate keeps whole seconds. */
  datatype Claims = Claims(
    subject: Subject,
    userId: int,
    sessionId: string,
    role: string,
    notBefore: int,
    expiresAt: int
  )

  /** What arrives in the cookie: claims under this server's key, or anything else. */
  datatype RawToken = Signed(claims: Claims) | Unverifiable

  function IssueAccess(userId: int, sessionId: string, role: string, now: int): Claims {
    Claims(Access, userId, sessionId, role, (now - SECOND) / SECOND, (now + ACCESS_TTL) / SECOND)
  }

  function ParseAccess(raw: RawToken, now: int): Option<Claims> {
    match raw
    case Unverifiable => None
    case Signed(c) =>
      if now < c.notBefore * SECOND || now >= c.expiresAt * SECOND then None
      else if c.subject != Access then None
      else Some(c)
  }
}

/**
 Issuing, rotating and revoking refresh sessions (internal/auth/sessions.go).
 Minted ids and secrets are parameters; the clock is read once per call.
 */
module SessionManager {
  import opened Prelude
  import opened SessionStore
  import opened AccessTokens

  const REFRESH_TTL: int := 7 * 24 * 3600 * SECOND

  datatype RefreshToken = RefreshToken(sessionId: string, secret: string) {
    function SecretHash(): Hash {
      Sha256(secret)
    }
  }

  datatype IssueResult = IssueResult(access: Claims, refresh: RefreshToken, familyId: string, refreshExpires: int)

  datatype Reply = Done(result: IssueResult) | SessionReuse | SessionInvalid | InternalError

  function RootParams(userId: int, minted: RefreshToken, familyId: string, now: int): CreateParams {
    CreateParams(minted.sessionId, userId, minted.SecretHash(), familyId, None, now + REFRESH_TTL)
  }

  function ChildParams(parent: Session, minted: RefreshToken, now: int): CreateParams {
    CreateParams(minted.sessionId, parent.userId, minted.SecretHash(), parent.familyId, Some(parent.id), now + REFRESH_TTL)
  }

  /** The row a presented token proves possession of. */
  predicate Possesses(rows: Table, t: RefreshToken) {
    t.sessionId in rows && rows[t.sessionId].refreshHash == t.SecretHash()
  }

  predicate Expired(s: Session, now: int) {
    now > s.expiresAt * SECOND
  }

  /** The token's session can be rotated: possessed, active, in time, its user known. */
  predicate Rotatable(rows: Table, users: set<int>, t: RefreshToken, now: int) {
    && Possesses(rows, t)
    && !rows[t.sessionId].Revoked()
    && !Expired(rows[t.sessionId], now)
    && rows[t.sessionId].userId in users
  }

  function IssueOutcome(rows: Table, users: map<int, string>, userId: int, role: string,
                        minted: RefreshToken, familyId: string, now: int): (r: (Reply, Table))
  {
    var p := RootParams(userId, minted, familyId, now);
    if Insertable(rows, users.Keys, p) then
      (Done(IssueResult(IssueAccess(userId, minted.sessionId, role, now), minted, familyId, now + REFRESH_TTL)),
       rows[p.id := NewRow(p, now)])
    else (InternalError, rows)
  }

  /** The reply to a presented token and the table it leaves. */
  function RotateOutcome(rows: Table, users: map<int, string>, t: RefreshToken, minted: RefreshToken, now: int): (r: (Reply, Table))
  {
    if !Possesses(rows, t) then (SessionInvalid, rows)
    else
      var s := rows[t.sessionId];
      if s.Revoked() then
        if HasChildren(rows, s.id) then (SessionReuse, FamilyRevoked(rows, s.familyId, now))
        else (SessionInvalid, rows)
      else if Expired(s, now) then (SessionInvalid, SessionRevoked(rows, s.id, now))
      else if s.userId !in users then (SessionInvalid, rows)
      else
        var p := ChildParams(s, minted, now);
        if !Insertable(rows, users.Keys, p) then (InternalError, rows)
        else
          (Done(IssueResult(IssueAccess(s.userId, minted.sessionId, users[s.userId], now), minted, s.familyId, now + REFRESH_TTL)),
           SessionRevoked(rows[p.id := NewRow(p, now)], s.id, now))
  }

  /** Each row is stored under its own id. */
  ghost predicate Keyed(rows: Table) {
    forall id :: id in rows ==> rows[id].id == id
  }

  // ---- replies and tables told from the columns alone; clocks are in nanoseconds, columns in seconds ----

  predicate Known(rows: Table, t: RefreshToken) {
    t.sessionId in rows && rows[t.sessionId].refreshHash == Sha256(t.secret)
  }

  /** Which of the four replies a presented token gets. */
  ghost predicate RotateReplies(rows: Table, users: map<int, string>, t: RefreshToken, minted: RefreshToken, now: int, r: Reply) {
    if !Known(rows, t) then r == SessionInvalid
    else
      var s := rows[t.sessionId];
      if s.revokedAt != None then
        r == if exists id :: id in rows && rows[id].parentId == Some(t.sessionId) then SessionReuse else SessionInvalid
      else if now > s.expiresAt * 1_000_000_000 || s.userId !in users then r == SessionInvalid
      else if minted.sessionId in rows then r == InternalError
      else
        r == Done(IssueResult(
          Claims(Access, s.userId, minted.sessionId, users[s.userId], now / 1_000_000_000 - 1, now / 1_000_000_000 + 900),
          minted, s.familyId, now + 604_800_000_000_000))
  }

  /** The table it leaves: a replay revokes the family, an expired session is revoked, a rotation swaps child for parent. */
  ghost predicate RotateLeaves(rows: Table, t: RefreshToken, minted: RefreshToken, now: int, r: Reply, after: Table) {
    var marked := Some(now / 1_000_000_000);
    if r == SessionReuse then
      && Known(rows, t) && after.Keys == rows.Keys
      && forall id :: id in rows ==>
           after[id] == if rows[id].familyId == rows[t.sessionId].familyId && rows[id].revokedAt == None
                        then rows[id].(revokedAt := marked) else rows[id]
    else if r.Done? then
      && Known(rows, t)
      && var s := rows[t.sessionId];
      after == rows[minted.sessionId := Session(minted.sessionId, s.userId, Sha256(minted.secret), s.familyId, Some(t.sessionId),
                                                now / 1_000_000_000, now / 1_000_000_000 + 604_800, None)]
                   [t.sessionId := s.(revokedAt := marked)]
    else if Known(rows, t) && rows[t.sessionId].revokedAt == None && now > rows[t.sessionId].expiresAt * 1_000_000_000 then
      after == rows[t.sessionId := rows[t.sessionId].(revokedAt := marked)]
    else after == rows
  }

  lemma RotateSpelledOut(rows: Table, users: map<int, string>, t: RefreshToken, minted: RefreshToken, now: int)
    requires Keyed(rows)
    ensures var (r, after) := RotateOutcome(rows, users, t, minted, now);
            RotateReplies(rows, users, t, minted, now, r) && RotateLeaves(rows, t, minted, now, r, after)
  {
  }

  class Manager {
    const db: DB

    constructor (db: DB)
      ensures this.db == db
    {
      this.db := db;
    }

    method Issue(userId: int, role: string, minted: RefreshToken, familyId: string, now: int) returns (r: Reply)
      modifies db`rows
      ensures (r, db.rows) == IssueOutcome(old(db.rows), db.users, userId, role, minted, familyId, now)
      ensures minted.sessionId in old(db.rows) || userId !in db.users ==> r == InternalError && db.rows == old(db.rows)
      ensures minted.sessionId !in old(db.rows) && userId in db.users ==>
                && r == Done(IssueResult(
                     Claims(Access, userId, minted.sessionId, role, now / 1_000_000_000 - 1, now / 1_000_000_000 + 900),
                     minted, familyId, now + 604_800_000_000_000))
                && db.rows == old(db.rows)[minted.sessionId :=
                     Session(minted.sessionId, userId, Sha256(minted.secret), familyId, None,
                             now / 1_000_000_000, now / 1_000_000_000 + 604_800, None)]
    {
      var expires := now + REFRESH_TTL;
      var ok := db.CreateSession(
        CreateParams(minted.sessionId, userId, minted.SecretHash(), familyId, None, expires), now);
      if !ok {
        return InternalError;
      }
      r := Done(IssueResult(IssueAccess(userId, minted.sessionId, role, now), minted, familyId, expires));
    }

    method Rotate(presented: RefreshToken, minted: RefreshToken, now: int) returns (r: Reply)
      requires Keyed(db.rows)
      modifies db`rows
      ensures (r, db.rows) == RotateOutcome(old(db.rows), db.users, presented, minted, now)
      ensures RotateReplies(old(db.rows), db.users, presented, minted, now, r)
      ensures RotateLeaves(old(db.rows), presented, minted, now, r, db.rows)
    {
      RotateSpelledOut(db.rows, db.users, presented, minted, now);
      var found := db.SessionByID(presented.sessionId);
      if found.None? {
        return SessionInvalid;
      }
      var sess := found.value;
      if sess.refreshHash != presented.SecretHash() {
        return SessionInvalid;
      }
      if sess.Revoked() {
        var hasChildren := db.HasSessionChildren(sess.id);
        if hasChildren {
          db.RevokeFamily(sess.familyId, now);
          return SessionReuse;
        }
        return SessionInvalid;
      }
      if now > sess.expiresAt * SECOND {
        db.RevokeSession(sess.id, now);
        return SessionInvalid;
      }
      var role := db.UserByID(sess.userId);
      if role.None? {
        return SessionInvalid;
      }
      var expires := now + REFRESH_TTL;
      var ok := db.CreateSession(
        CreateParams(minted.sessionId, sess.userId, minted.SecretHash(), sess.familyId, Some(sess.id), expires), now);
      if !ok {
        return InternalError;
      }
      db.RevokeSession(sess.id, now);
      r := Done(IssueResult(IssueAccess(sess.userId, minted.sessionId, role.value, now), minted, sess.familyId, expires));
    }

    method Revoke(sessionId: string, now: int)
      modifies db`rows
      ensures db.rows == SessionRevoked(old(db.rows), sessionId, now)
      ensures db.rows.Keys == old(db.rows).Keys
      ensures forall k :: k in db.rows ==>
                db.rows[k] == if k == sessionId && old(db.rows)[k].revokedAt == None
                              then old(db.rows)[k].(revokedAt := Some(now / 1_000_000_000)) else old(db.rows)[k]
    {
      db.RevokeSession(sessionId, now);
    }
  }

  // ---- what one call means for a later one ----

  lemma IssueGrows(rows: Table, users: map<int, string>, userId: int, role: string, family: string, minted: RefreshToken, now: int)
    requires Keyed(rows)
    ensures var after := IssueOutcome(rows, users, userId, role, minted, family, now).1; Grows(rows, after) && Keyed(after)
  {
  }

  lemma RevokingGrows(rows: Table, s: Session, now: int)
    requires Keyed(rows)
    ensures Grows(rows, FamilyRevoked(rows, s.familyId, now)) && Keyed(FamilyRevoked(rows, s.familyId, now))
    ensures Grows(rows, SessionRevoked(rows, s.id, now)) && Keyed(SessionRevoked(rows, s.id, now))
  {
  }

  lemma InsertingGrows(rows: Table, users: set<int>, p: CreateParams, now: int)
    requires Keyed(rows)
    ensures Grows(rows, Inserted(rows, users, p, now)) && Keyed(Inserted(rows, users, p, now))
  {
  }

  lemma SwappingGrows(rows: Table, s: Session, child: Session, now: int)
    requires Keyed(rows) && child.id !in rows
    ensures var after := SessionRevoked(rows[child.id := child], s.id, now); Grows(rows, after) && Keyed(after)
  {
  }

  lemma RotateGrows(rows: Table, users: map<int, string>, t: RefreshToken, minted: RefreshToken, now: int)
    requires Keyed(rows)
    ensures var after := RotateOutcome(rows, users, t, minted, now).1; Grows(rows, after) && Keyed(after)
  {
    var (reply, after) := RotateOutcome(rows, users, t, minted, now);
    if !Possesses(rows, t) {
      assert after == rows;
    } else if reply.Done? {
      var s := rows[t.sessionId];
      SwappingGrows(rows, s, NewRow(ChildParams(s, minted, now), now), now);
    } else {
      var s := rows[t.sessionId];
      RevokingGrows(rows, s, now);
      assert after == rows || after == FamilyRevoked(rows, s.familyId, now) || after == SessionRevoked(rows, s.id, now);
    }
  }

  /**
   A token that rotated once is a replay for ever: whatever happened to the
   table since, presenting it again reports reuse and leaves its family without
   an active session.
   */
  lemma RotatedTokenIsReplayForever(rows: Table, users: map<int, string>, t: RefreshToken, minted: RefreshToken, now: int,
                                    later: Table, users': map<int, string>, minted': RefreshToken, now': int)
    requires Keyed(rows)
    requires RotateOutcome(rows, users, t, minted, now).0.Done?
    requires Grows(RotateOutcome(rows, users, t, minted, now).1, later)
    ensures var (reply, after) := RotateOutcome(later, users', t, minted', now');
            && reply == SessionReuse
            && forall id :: id in after && after[id].familyId == rows[t.sessionId].familyId ==> after[id].Revoked()
  {
    var swapped := RotateOutcome(rows, users, t, minted, now).1;
    assert minted.sessionId in swapped && swapped[minted.sessionId].parentId == Some(t.sessionId);
    assert later[t.sessionId] == swapped[t.sessionId];
    assert later[minted.sessionId].parentId == Some(t.sessionId);
  }

  /** The freshly minted token rotates next, exactly until its seven days are over, and is invalid afterwards. */
  lemma MintedTokenRotatesNext(rows: Table, users: map<int, string>, t: RefreshToken, minted: RefreshToken, now: int,
                               next: RefreshToken, now': int)
    requires Keyed(rows)
    requires RotateOutcome(rows, users, t, minted, now).0.Done?
    requires next.sessionId !in RotateOutcome(rows, users, t, minted, now).1
    ensures var after := RotateOutcome(rows, users, t, minted, now).1;
            var r := RotateOutcome(after, users, minted, next, now').0;
            && (Rotatable(after, users.Keys, minted, now') <==> now' <= (now / 1_000_000_000 + 604_800) * 1_000_000_000)
            && (r.Done? <==> now' <= (now / 1_000_000_000 + 604_800) * 1_000_000_000)
            && (!r.Done? ==> r == SessionInvalid)
  {
  }

  /** A session that is logged out before it ever rotated is invalid, not reuse, and costs its family nothing. */
  lemma LoggedOutTokenIsInvalidOnly(rows: Table, users: map<int, string>, t: RefreshToken, minted: RefreshToken, now: int, now': int)
    requires Keyed(rows) && t.sessionId in rows && !HasChildren(rows, t.sessionId)
    ensures var out := SessionRevoked(rows, t.sessionId, now);
            RotateOutcome(out, users, t, minted, now') == (SessionInvalid, out)
  {
  }
}
