/**
 The guard in front of every authenticated route
 (internal/api/middleware/auth.go). It looks at the token's own lifetime and at
 the row's revocation mark, but neither at the row's expiry nor at whose row it
 is; those facts follow from how tokens are issued.
 */
module AccessControl {
  import opened Prelude
  import opened SessionStore
  import opened AccessTokens
  import opened SessionManager
  import opened SessionChains
  import opened SessionInterleaving

  datatype Verdict =
    | Admitted(claims: Claims, role: string)
    | Unauthorized(reason: string)

  /** The middleware, check by check; an empty cookie is `None`. */
  function RequireAuth(rows: Table, users: map<int, string>, cookie: Option<RawToken>, now: int): Verdict {
    match cookie
    case None => Unauthorized("missing access token")
    case Some(raw) =>
      match ParseAccess(raw, now)
      case None => Unauthorized("invalid access token")
      case Some(claims) =>
        if claims.sessionId !in rows then Unauthorized("session not found")
        else if rows[claims.sessionId].Revoked() then Unauthorized("session revoked")
        else if claims.userId !in users then Unauthorized("user not found")
        else Admitted(claims, users[claims.userId])
  }

  /** A signed access token within its lifetime. */
  ghost predicate Genuine(cookie: Option<RawToken>, now: int) {
    && cookie.Some? && cookie.value.Signed?
    && var c := cookie.value.claims;
    c.notBefore * 1_000_000_000 <= now < c.expiresAt * 1_000_000_000 && c.subject == Access
  }

  /** Who is let in, told from token and tables: such a token, its session there and unrevoked, its user known. */
  ghost predicate LetsIn(rows: Table, users: map<int, string>, cookie: Option<RawToken>, now: int) {
    && Genuine(cookie, now)
    && var c := cookie.value.claims;
    c.sessionId in rows && rows[c.sessionId].revokedAt == None && c.userId in users
  }

  /** It lets in exactly those, with the token's own claims and the role on record; others learn the first check they failed. */
  lemma RequireAuthSpelledOut(rows: Table, users: map<int, string>, cookie: Option<RawToken>, now: int)
    ensures var v := RequireAuth(rows, users, cookie, now);
            && (v.Admitted? <==> LetsIn(rows, users, cookie, now))
            && (v.Admitted? ==> v.claims == cookie.value.claims && v.role == users[v.claims.userId])
            && (v == Unauthorized("missing access token") <==> cookie == None)
            && (v == Unauthorized("invalid access token") <==> cookie.Some? && !Genuine(cookie, now))
            && (Genuine(cookie, now) ==>
                  var c := cookie.value.claims;
                  && (v == Unauthorized("session not found") <==> c.sessionId !in rows)
                  && (v == Unauthorized("session revoked") <==> c.sessionId in rows && rows[c.sessionId].revokedAt != None)
                  && (v == Unauthorized("user not found") <==>
                        c.sessionId in rows && rows[c.sessionId].revokedAt == None && c.userId !in users))
  {
  }

  /** Logging out shuts out the session's access tokens in every later state. */
  lemma LogoutShutsOutItsTokens(w: World, session: string, run: seq<Step>, c: Claims)
    requires Keyed(w.rows) && session in w.rows && c.sessionId == session
    requires ValidRun(Next(w, Logout(session)), run)
    ensures var e := After(Next(w, Logout(session)), run);
            RequireAuth(e.rows, e.users, Some(RawToken.Signed(c)), e.now).Unauthorized?
  {
    var out := Next(w, Logout(session));
    NextGrows(w, Logout(session));
    StepSpelledOut(w, Logout(session));
    RunGrows(out, run);
    assert out.rows[session].Revoked();
  }

  /** An issued token names a session of its own user that outlives it. */
  ghost predicate Backed(rows: Table, c: Claims) {
    && c.subject == Access
    && c.sessionId in rows
    && rows[c.sessionId].userId == c.userId
    && c.expiresAt < rows[c.sessionId].expiresAt
  }

  ghost predicate AllBacked(w: World) {
    Keyed(w.rows) && forall c :: c in w.issued ==> Backed(w.rows, c)
  }

  lemma NextKeepsBacked(w: World, s: Step)
    requires AllBacked(w) && Enabled(w, s)
    ensures AllBacked(Next(w, s))
  {
    NextGrows(w, s);
    var w' := Next(w, s);
    forall c | c in w'.issued ensures Backed(w'.rows, c) {
      if c in w.issued {
        assert Backed(w.rows, c);
        assert c.sessionId in w'.rows && w'.rows[c.sessionId].SameIdentity(w.rows[c.sessionId]);
      }
    }
  }

  lemma {:induction false} RunKeepsBacked(w: World, run: seq<Step>)
    requires AllBacked(w) && ValidRun(w, run)
    ensures AllBacked(After(w, run))
    decreases |run|
  {
    if run != [] {
      NextKeepsBacked(w, run[0]);
      RunKeepsBacked(Next(w, run[0]), run[1..]);
    }
  }

  /**
   Whoever is admitted, at any point of any run, holds the one active session
   of its family: it belongs to the user the token claims, is not revoked, and
   has not reached its own expiry.
   */
  lemma AdmittedSessionIsLive(w: World, run: seq<Step>, c: Claims)
    requires Initial(w) && ValidRun(w, run)
    requires c in After(w, run).issued
    requires var e := After(w, run); RequireAuth(e.rows, e.users, Some(RawToken.Signed(c)), e.now).Admitted?
    ensures var e := After(w, run);
            && c.sessionId in e.rows
            && var row := e.rows[c.sessionId];
            && row.userId == c.userId
            && !row.Revoked()
            && !Expired(row, e.now)
            && (forall id :: id in e.rows && e.rows[id].familyId == row.familyId && !e.rows[id].Revoked() ==> id == c.sessionId)
  {
    var e := After(w, run);
    RunKeepsBacked(w, run);
    assert Backed(e.rows, c);
    var row := e.rows[c.sessionId];
    forall id | id in e.rows && e.rows[id].familyId == row.familyId && !e.rows[id].Revoked()
      ensures id == c.sessionId
    {
      FamiliesAreChains(w, run, id, c.sessionId);
    }
  }

  /** And conversely: a token just issued is admitted until it expires, as long as its session stays unrevoked. */
  lemma IssuedTokenIsAdmittedWhileActive(w: World, s: Step, run: seq<Step>)
    requires Keyed(w.rows) && Enabled(w, s)
    requires (s.Login? && LoginReply(w, s).0.Done?) || (s.Refresh? && RefreshReply(w, s).0.Done?)
    requires ValidRun(Next(w, s), run)
    ensures var r := if s.Login? then LoginReply(w, s).0 else RefreshReply(w, s).0;
            var c := r.result.access;
            var e := After(Next(w, s), run);
            && c.sessionId in e.rows
            && (RequireAuth(e.rows, e.users, Some(RawToken.Signed(c)), e.now).Admitted? <==>
                  !e.rows[c.sessionId].Revoked() && e.now < c.expiresAt * SECOND)
  {
    var r := if s.Login? then LoginReply(w, s).0 else RefreshReply(w, s).0;
    NextGrows(w, s);
    RunGrows(Next(w, s), run);
    RunOnlyMovesForward(Next(w, s), run);
    assert r.result.access.sessionId in Next(w, s).rows;
  }

  lemma {:induction false} RunOnlyMovesForward(w: World, run: seq<Step>)
    requires ValidRun(w, run)
    ensures w.now <= After(w, run).now
    ensures forall u :: u in w.users ==> u in After(w, run).users
    decreases |run|
  {
    if run != [] {
      RunOnlyMovesForward(Next(w, run[0]), run[1..]);
    }
  }

  /**
   A password change shuts out every access token the user held: none of them is
   admitted in any later state, though their own lifetime may still run.
   */
  lemma PasswordChangeShutsOutOldTokens(w: World, run: seq<Step>, user: int, run': seq<Step>, c: Claims)
    requires Initial(w) && ValidRun(w, run)
    requires c in After(w, run).issued && c.userId == user
    requires ValidRun(Next(After(w, run), PasswordChange(user)), run')
    ensures var e := After(Next(After(w, run), PasswordChange(user)), run');
            RequireAuth(e.rows, e.users, Some(RawToken.Signed(c)), e.now).Unauthorized?
  {
    var mid := After(w, run);
    RunKeepsBacked(w, run);
    assert Backed(mid.rows, c);
    var changed := Next(mid, PasswordChange(user));
    NextGrows(mid, PasswordChange(user));
    RunGrows(changed, run');
    assert changed.rows[c.sessionId].Revoked();
  }

  // ---- with rotations interleaved statement by statement ----

  /** A token names a session of its own user. */
  ghost predicate Owns(rows: Table, c: Claims) {
    c.subject == Access && c.sessionId in rows && rows[c.sessionId].userId == c.userId
  }

  /** The child a rotation is about to issue a token for is there. */
  ghost predicate Planted(rows: Table, pc: Pc) {
    pc.RevokeParent? ==> pc.minted.sessionId in rows && rows[pc.minted.sessionId].userId == pc.sess.userId
  }

  ghost predicate AllOwned(v: Server) {
    && Keyed(v.w.rows)
    && (forall c :: c in v.w.issued ==> Owns(v.w.rows, c))
    && (forall tid :: tid in v.calls ==> Planted(v.w.rows, v.calls[tid]))
  }

  lemma MoveKeepsAllOwned(v: Server, m: Move)
    requires AllOwned(v) && CanMove(v, m)
    ensures AllOwned(Moved(v, m))
  {
    MoveGrows(v, m);
    var v' := Moved(v, m);
    forall c | c in v'.w.issued ensures Owns(v'.w.rows, c) {
      if c in v.w.issued {
        assert Owns(v.w.rows, c) && v'.w.rows[c.sessionId].SameIdentity(v.w.rows[c.sessionId]);
      } else if m.Advance? {
        assert Planted(v.w.rows, v.calls[m.tid]);
        assert v'.w.rows[c.sessionId].SameIdentity(v.w.rows[c.sessionId]);
      }
    }
    forall tid | tid in v'.calls ensures Planted(v'.w.rows, v'.calls[tid]) {
      if tid in v.calls && v'.calls[tid] == v.calls[tid] && v.calls[tid].RevokeParent? {
        assert Planted(v.w.rows, v.calls[tid]);
        assert v'.w.rows[v.calls[tid].minted.sessionId].SameIdentity(v.w.rows[v.calls[tid].minted.sessionId]);
      }
    }
  }

  lemma {:induction false} MovesKeepAllOwned(v: Server, ms: seq<Move>)
    requires AllOwned(v) && ValidMoves(v, ms)
    ensures AllOwned(MovedAll(v, ms))
    decreases |ms|
  {
    if ms != [] {
      MoveKeepsAllOwned(v, ms[0]);
      MovesKeepAllOwned(Moved(v, ms[0]), ms[1..]);
    }
  }

  /** However rotations interleave, whoever is admitted holds an unrevoked session of the user the token claims. */
  lemma AdmittedSessionIsOwn(v: Server, ms: seq<Move>, c: Claims)
    requires Initial(v.w) && v.calls == map[] && ValidMoves(v, ms)
    requires var w := MovedAll(v, ms).w;
             c in w.issued && RequireAuth(w.rows, w.users, Some(RawToken.Signed(c)), w.now).Admitted?
    ensures var w := MovedAll(v, ms).w;
            c.sessionId in w.rows && w.rows[c.sessionId].userId == c.userId && !w.rows[c.sessionId].Revoked()
  {
    MovesKeepAllOwned(v, ms);
    assert Owns(MovedAll(v, ms).w.rows, c);
  }

  /** No token of a session that descends from one the user had in `before` is admitted. */
  ghost predicate AllShutOut(before: Table, w: World, user: int) {
    forall c, root, n: nat :: c in w.issued && root in before && before[root].userId == user && Descends(w.rows, c.sessionId, root, n) ==>
      RequireAuth(w.rows, w.users, Some(RawToken.Signed(c)), w.now).Unauthorized?
  }

  /** A rotation stalled before its insert goes on to issue a token that is admitted. */
  lemma StalledRotationAdmits(v: Server, tid: nat) returns (ms: seq<Move>, c: Claims)
    requires Keyed(v.w.rows) && Owned(v.w) && tid in v.calls
    requires Remembers(v.w.rows, v.calls[tid]) && AboutToInsert(v.calls[tid])
    requires v.calls[tid].minted.sessionId !in v.w.rows
    ensures ValidMoves(v, ms)
    ensures var w := MovedAll(v, ms).w;
            && c in w.issued && Descends(w.rows, c.sessionId, v.calls[tid].sess.id, 1)
            && RequireAuth(w.rows, w.users, Some(RawToken.Signed(c)), w.now).Admitted?
  {
    var parent, child := v.calls[tid].sess, v.calls[tid].minted.sessionId;
    assert v.w.rows[parent.id].SameIdentity(parent);
    ms := StalledInserts(v, tid);
    var v1 := MovedAll(v, ms);
    var last := ExtendFront(v1, Advance(tid), []);
    MovesCompose(v, ms, last);
    ms := ms + last;
    var w := MovedAll(v, ms).w;
    c := IssueAccess(parent.userId, child, v1.calls[tid].role, v1.w.now);
    assert Descends(w.rows, parent.id, parent.id, 0);
  }

  /**
   After a password change no access token of a session the user had, or of any
   descendant of one, is admitted in any continuation, if and only if no
   rotation of the user stood between reading an active session and inserting
   the child.
   */
  lemma PasswordChangeShutsOutIffNoneStalled(v: Server, rank: map<string, nat>, user: int)
    requires Sound(v, rank)
    // ids still to be inserted are fresh
    requires forall tid :: tid in v.calls && AboutToInsert(v.calls[tid]) ==> v.calls[tid].minted.sessionId !in v.w.rows
    ensures var changed := Moved(v, Other(PasswordChange(user)));
            (forall tid :: tid in v.calls && AboutToInsert(v.calls[tid]) ==> v.calls[tid].sess.userId != user) <==>
            (forall ms :: ValidMoves(changed, ms) ==> AllShutOut(changed.w.rows, MovedAll(changed, ms).w, user))
  {
    var changed := Moved(v, Other(PasswordChange(user)));
    var rank' := MoveKeepsSound(v, Other(PasswordChange(user)), rank);
    SoundIsKeyed(changed, rank');
    if tid :| tid in v.calls && AboutToInsert(v.calls[tid]) && v.calls[tid].sess.userId == user {
      assert Remembers(changed.w.rows, changed.calls[tid]);
      var ms, c := StalledRotationAdmits(changed, tid);
      assert ValidMoves(changed, ms) && !AllShutOut(changed.w.rows, MovedAll(changed, ms).w, user);
    } else {
      PasswordChangeIsFinalIffNoneStalled(v, rank, user);
      forall ms | ValidMoves(changed, ms) ensures AllShutOut(changed.w.rows, MovedAll(changed, ms).w, user) {
        assert DescendantsRevoked(changed.w.rows, MovedAll(changed, ms).w.rows, user);
      }
    }
  }
}
