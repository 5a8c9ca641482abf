/**
 How far the one-chain picture of a family survives when the statements of
 rotations interleave: exactly when a session can still get a second child, and
 that chains survive as long as no two rotations of one session overlap.
 */
module SessionForks {
  import opened Prelude
  import opened SessionStore
  import opened SessionManager
  import opened SessionChains
  import opened SessionInterleaving

  // ---- a second child ----

  predicate IsChild(rows: Table, id: string, p: string) {
    id in rows && rows[id].parentId == Some(p)
  }

  ghost predicate AtMostOneChild(rows: Table, p: string) {
    forall a, b :: IsChild(rows, a, p) && IsChild(rows, b, p) ==> a == b
  }

  /** A rotation has read the session as active and not yet inserted its child. */
  predicate Expecting(v: Server, tid: nat, p: string) {
    tid in v.calls && AboutToInsert(v.calls[tid]) && v.calls[tid].sess.id == p
  }

  /** Of children there and children coming there is at most one. */
  ghost predicate AtMostOneHeir(v: Server, p: string) {
    && AtMostOneChild(v.w.rows, p)
    && (forall i, j :: Expecting(v, i, p) && Expecting(v, j, p) ==> i == j)
    && (forall id, i :: IsChild(v.w.rows, id, p) ==> !Expecting(v, i, p))
  }

  /** No rotation can read the session as active any more. */
  predicate Shut(w: World, p: string) {
    p in w.rows && (w.rows[p].Revoked() || Expired(w.rows[p], w.now))
  }

  ghost predicate Guarded(v: Server, p: string) {
    Shut(v.w, p) && AtMostOneHeir(v, p)
  }

  /** A new child of `p` is the one a rotation was about to insert. */
  lemma NewChildWasExpected(v: Server, m: Move, id: string, p: string)
    requires Keyed(v.w.rows) && CanMove(v, m)
    requires IsChild(Moved(v, m).w.rows, id, p) && !IsChild(v.w.rows, id, p)
    ensures m.Advance? && Expecting(v, m.tid, p) && !Expecting(Moved(v, m), m.tid, p)
    ensures id == v.calls[m.tid].minted.sessionId
  {
    MoveGrows(v, m);
    MoveAdds(v, m);
    assert id in v.w.rows ==> Moved(v, m).w.rows[id].SameIdentity(v.w.rows[id]);
  }

  lemma MoveKeepsShut(v: Server, m: Move, p: string)
    requires Keyed(v.w.rows) && CanMove(v, m) && Shut(v.w, p)
    ensures Shut(Moved(v, m).w, p)
    ensures forall i :: Expecting(Moved(v, m), i, p) ==> Expecting(v, i, p)
  {
    MoveGrows(v, m);
    assert Moved(v, m).w.rows[p].SameIdentity(v.w.rows[p]);
  }

  lemma MoveKeepsGuarded(v: Server, m: Move, p: string)
    requires Keyed(v.w.rows) && CanMove(v, m) && Guarded(v, p)
    ensures Guarded(Moved(v, m), p)
  {
    var v' := Moved(v, m);
    MoveKeepsShut(v, m, p);
    forall a, b | IsChild(v'.w.rows, a, p) && IsChild(v'.w.rows, b, p) ensures a == b {
      if !IsChild(v.w.rows, a, p) { NewChildWasExpected(v, m, a, p); }
      if !IsChild(v.w.rows, b, p) { NewChildWasExpected(v, m, b, p); }
    }
    forall id, i | IsChild(v'.w.rows, id, p) ensures !Expecting(v', i, p) {
      if !IsChild(v.w.rows, id, p) { NewChildWasExpected(v, m, id, p); }
    }
  }

  lemma {:induction false} MovesKeepGuarded(v: Server, ms: seq<Move>, p: string)
    requires Keyed(v.w.rows) && ValidMoves(v, ms) && Guarded(v, p)
    ensures Guarded(MovedAll(v, ms), p)
    decreases |ms|
  {
    if ms != [] {
      MoveGrows(v, ms[0]);
      MoveKeepsGuarded(v, ms[0], p);
      MovesKeepGuarded(Moved(v, ms[0]), ms[1..], p);
    }
  }

  /** The ids rotations are still to insert are fresh, and all different. */
  ghost predicate FreshIds(v: Server) {
    && (forall i :: i in v.calls && AboutToInsert(v.calls[i]) ==> v.calls[i].minted.sessionId !in v.w.rows)
    && (forall i, j :: i in v.calls && j in v.calls && i != j && AboutToInsert(v.calls[i]) && AboutToInsert(v.calls[j]) ==>
          v.calls[i].minted.sessionId != v.calls[j].minted.sessionId)
  }

  ghost predicate Standing(v: Server) {
    Keyed(v.w.rows) && Owned(v.w) && forall tid :: tid in v.calls ==> Remembers(v.w.rows, v.calls[tid])
  }

  lemma TwoExpectedFork(v: Server, i: nat, j: nat, p: string) returns (ms: seq<Move>)
    requires Standing(v) && i != j && Expecting(v, i, p) && Expecting(v, j, p)
    requires v.calls[i].minted.sessionId !in v.w.rows && v.calls[j].minted.sessionId !in v.w.rows
    requires v.calls[i].minted.sessionId != v.calls[j].minted.sessionId
    ensures ValidMoves(v, ms) && !AtMostOneChild(MovedAll(v, ms).w.rows, p)
  {
    var a := StalledInserts(v, i);
    var v1 := MovedAll(v, a);
    var b := StalledInserts(v1, j);
    MovesCompose(v, a, b);
    ms := a + b;
    var rows := MovedAll(v, ms).w.rows;
    assert IsChild(rows, v.calls[i].minted.sessionId, p) && IsChild(rows, v.calls[j].minted.sessionId, p);
  }

  lemma ChildAndExpectedFork(v: Server, id: string, i: nat, p: string) returns (ms: seq<Move>)
    requires Standing(v) && IsChild(v.w.rows, id, p) && Expecting(v, i, p)
    requires v.calls[i].minted.sessionId !in v.w.rows
    ensures ValidMoves(v, ms) && !AtMostOneChild(MovedAll(v, ms).w.rows, p)
  {
    ms := StalledInserts(v, i);
    var rows := MovedAll(v, ms).w.rows;
    assert IsChild(rows, id, p) && IsChild(rows, v.calls[i].minted.sessionId, p);
  }

  /** Two rotations of a session that is still open fork it. */
  lemma OpenSessionForks(v: Server, p: string, m1: RefreshToken, m2: RefreshToken) returns (ms: seq<Move>)
    requires Standing(v) && p in v.w.rows && !Shut(v.w, p)
    requires m1.sessionId !in v.w.rows && m2.sessionId !in v.w.rows && m1.sessionId != m2.sessionId
    ensures ValidMoves(v, ms) && !AtMostOneChild(MovedAll(v, ms).w.rows, p)
  {
    var t := RefreshToken(p, v.w.rows[p].refreshHash.secret);
    var i := Above(v.calls.Keys);
    var a := ReachesInsert(v, i, t, m1);
    var v1 := MovedAll(v, a);
    var j := Above(v1.calls.Keys);
    var b := ReachesInsert(v1, j, t, m2);
    var v2 := MovedAll(v1, b);
    var c := TwoExpectedFork(v2, i, j, p);
    MovesCompose(v1, b, c);
    MovesCompose(v, a, b + c);
    ms := a + (b + c);
  }

  lemma NotGuardedForks(v: Server, p: string, m1: RefreshToken, m2: RefreshToken) returns (ms: seq<Move>)
    requires Standing(v) && FreshIds(v) && p in v.w.rows && !Guarded(v, p)
    requires m1.sessionId !in v.w.rows && m2.sessionId !in v.w.rows && m1.sessionId != m2.sessionId
    ensures ValidMoves(v, ms) && !AtMostOneChild(MovedAll(v, ms).w.rows, p)
  {
    if !Shut(v.w, p) {
      ms := OpenSessionForks(v, p, m1, m2);
    } else if !AtMostOneChild(v.w.rows, p) {
      ms := [];
    } else if i, j :| Expecting(v, i, p) && Expecting(v, j, p) && i != j {
      ms := TwoExpectedFork(v, i, j, p);
    } else {
      var id, i :| IsChild(v.w.rows, id, p) && Expecting(v, i, p);
      ms := ChildAndExpectedFork(v, id, i, p);
    }
  }

  /**
   A session never gets a second child in any continuation if and only if it is
   revoked or expired and its children together with the rotations that read it
   while active and have yet to insert number at most one.
   */
  lemma NoSecondChildIff(v: Server, rank: map<string, nat>, p: string, m1: RefreshToken, m2: RefreshToken)
    requires Sound(v, rank) && FreshIds(v) && p in v.w.rows
    requires m1.sessionId !in v.w.rows && m2.sessionId !in v.w.rows && m1.sessionId != m2.sessionId
    ensures Guarded(v, p) <==> (forall ms :: ValidMoves(v, ms) ==> AtMostOneChild(MovedAll(v, ms).w.rows, p))
  {
    SoundIsKeyed(v, rank);
    if Guarded(v, p) {
      forall ms | ValidMoves(v, ms) ensures AtMostOneChild(MovedAll(v, ms).w.rows, p) {
        MovesKeepGuarded(v, ms, p);
      }
    } else {
      var ms := NotGuardedForks(v, p, m1, m2);
      assert ValidMoves(v, ms);
    }
  }

  // ---- runs in which no two rotations of one session overlap ----

  /** A rotation has read the session as active and not yet revoked it. */
  predicate Rotating(v: Server, tid: nat, p: string) {
    tid in v.calls && (AboutToInsert(v.calls[tid]) || v.calls[tid].RevokeParent?) && v.calls[tid].sess.id == p
  }

  ghost predicate NoOverlap(v: Server) {
    forall i, j, p :: Rotating(v, i, p) && Rotating(v, j, p) ==> i == j
  }

  /** At no point of the run are two rotations of one session under way. */
  ghost predicate NeverOverlap(v: Server, ms: seq<Move>)
    requires ValidMoves(v, ms)
    decreases |ms|
  {
    NoOverlap(v) && (ms == [] || NeverOverlap(Moved(v, ms[0]), ms[1..]))
  }

  /** Revoked, or about to be by the rotation that has just given it a child. */
  ghost predicate Retired(v: Server, id: string)
    requires id in v.w.rows
  {
    v.w.rows[id].Revoked() || Swapping(v, id)
  }

  /** Two sessions of one family never share a place, and one not retired is the last. */
  ghost predicate ApartBut(v: Server, pos: map<string, nat>, a: string, b: string)
    requires a in v.w.rows && b in v.w.rows
  {
    v.w.rows[a].familyId == v.w.rows[b].familyId && a in pos && b in pos ==>
      && (a != b ==> pos[a] != pos[b])
      && (!Retired(v, a) ==> pos[b] <= pos[a])
  }

  /** A session about to get a child is the last of its family. */
  ghost predicate LastOfFamily(v: Server, pos: map<string, nat>, tid: nat, b: string)
    requires b in v.w.rows
  {
    tid in v.calls && AboutToInsert(v.calls[tid]) && v.calls[tid].sess.id in v.w.rows
    && v.w.rows[v.calls[tid].sess.id].familyId == v.w.rows[b].familyId ==>
      b in pos && v.calls[tid].sess.id in pos && pos[b] <= pos[v.calls[tid].sess.id]
  }

  ghost predicate ChainedBut(v: Server, pos: map<string, nat>) {
    && Placed(v.w.rows, pos)
    && (forall a, b {:trigger ApartBut(v, pos, a, b)} :: a in v.w.rows && b in v.w.rows ==> ApartBut(v, pos, a, b))
    && (forall tid, b {:trigger LastOfFamily(v, pos, tid, b)} :: b in v.w.rows ==> LastOfFamily(v, pos, tid, b))
    && (forall tid :: tid in v.calls ==> Remembers(v.w.rows, v.calls[tid]))
  }

  lemma PlacedIsKeyed(rows: Table, pos: map<string, nat>)
    requires Placed(rows, pos)
    ensures Keyed(rows)
  {
    forall id | id in rows ensures rows[id].id == id { assert PlacedAt(rows, pos, id); }
  }

  /** No move but an insert brings a session back from retirement. */
  lemma RetiredStays(v: Server, m: Move, id: string)
    requires Keyed(v.w.rows) && CanMove(v, m) && id in v.w.rows && Retired(v, id)
    ensures Retired(Moved(v, m), id)
  {
    MoveGrows(v, m);
    if !v.w.rows[id].Revoked() {
      var tid :| tid in v.calls && v.calls[tid].RevokeParent? && v.calls[tid].sess.id == id;
      assert m == Advance(tid) || Moved(v, m).calls[tid] == v.calls[tid];
    }
  }

  /** A rotation that has just read a session active found the last of its family. */
  lemma ReadsTheLast(v: Server, tid: nat, pos: map<string, nat>, b: string)
    requires ChainedBut(v, pos) && CanMove(v, Advance(tid)) && NoOverlap(Moved(v, Advance(tid)))
    requires v.calls[tid].ReadSession? && b in v.w.rows
    ensures LastOfFamily(Moved(v, Advance(tid)), pos, tid, b)
  {
    var v' := Moved(v, Advance(tid));
    if AboutToInsert(v'.calls[tid]) {
      var p := v.calls[tid].presented.sessionId;
      assert PlacedAt(v.w.rows, pos, p) && PlacedAt(v.w.rows, pos, b);
      assert Rotating(v', tid, p);
      if Swapping(v, p) {
        var k :| k in v.calls && v.calls[k].RevokeParent? && v.calls[k].sess.id == p;
        assert Rotating(v', k, p);
      }
      assert ApartBut(v, pos, p, b);
    }
  }

  lemma QuietMoveKeepsLast(v: Server, m: Move, pos: map<string, nat>, tid: nat, b: string)
    requires ChainedBut(v, pos) && CanMove(v, m) && NoOverlap(Moved(v, m))
    requires Grows(v.w.rows, Moved(v, m).w.rows) && b in v.w.rows
    requires m.Advance? && v.calls[m.tid].InsertChild? ==> Moved(v, m).calls[m.tid].Finished?
    ensures LastOfFamily(Moved(v, m), pos, tid, b)
  {
    assert LastOfFamily(v, pos, tid, b);
    if m == Advance(tid) && v.calls[tid].ReadSession? {
      ReadsTheLast(v, tid, pos, b);
    } else if tid in v.calls {
      assert Remembers(v.w.rows, v.calls[tid]);
    }
  }

  /** A move that adds no row keeps the chains. */
  lemma QuietMoveKeepsChains(v: Server, m: Move, pos: map<string, nat>)
    requires ChainedBut(v, pos) && CanMove(v, m) && NoOverlap(Moved(v, m))
    requires Moved(v, m).w.rows.Keys == v.w.rows.Keys
    requires m.Advance? && v.calls[m.tid].InsertChild? ==> Moved(v, m).calls[m.tid].Finished?
    ensures ChainedBut(Moved(v, m), pos)
  {
    var v' := Moved(v, m);
    PlacedIsKeyed(v.w.rows, pos);
    MoveGrows(v, m);
    MoveKeepsMemory(v, m);
    forall id | id in v'.w.rows ensures PlacedAt(v'.w.rows, pos, id) {
      assert id in v.w.rows.Keys && PlacedAt(v.w.rows, pos, id);
    }
    forall a, b | a in v'.w.rows && b in v'.w.rows ensures ApartBut(v', pos, a, b) {
      assert a in v.w.rows.Keys && b in v.w.rows.Keys && ApartBut(v, pos, a, b);
      if Retired(v, a) { RetiredStays(v, m, a); }
    }
    forall tid, b | b in v'.w.rows ensures LastOfFamily(v', pos, tid, b) {
      assert b in v.w.rows.Keys;
      QuietMoveKeepsLast(v, m, pos, tid, b);
    }
  }

  /** A login opens a family of its own. */
  lemma LoginKeepsChains(v: Server, s: Step, pos: map<string, nat>) returns (pos': map<string, nat>)
    requires ChainedBut(v, pos) && s.Login? && CanMove(v, Other(s)) && LoginReply(v.w, s).0.Done?
    ensures ChainedBut(Moved(v, Other(s)), pos')
  {
    var v', id0 := Moved(v, Other(s)), s.minted.sessionId;
    PlacedIsKeyed(v.w.rows, pos);
    MoveGrows(v, Other(s));
    MoveKeepsMemory(v, Other(s));
    pos' := pos[id0 := 0];
    forall id | id in v'.w.rows ensures PlacedAt(v'.w.rows, pos', id) {
      if id != id0 { assert id in v.w.rows && PlacedAt(v.w.rows, pos, id); }
    }
    forall a, b | a in v'.w.rows && b in v'.w.rows ensures ApartBut(v', pos', a, b) {
      if a != id0 && b != id0 {
        assert ApartBut(v, pos, a, b);
        if Retired(v, a) { RetiredStays(v, Other(s), a); }
      }
    }
    forall tid, b | b in v'.w.rows ensures LastOfFamily(v', pos', tid, b) {
      if b != id0 { assert LastOfFamily(v, pos, tid, b); }
      if tid in v.calls { assert Remembers(v.w.rows, v.calls[tid]); }
    }
  }

  /** What an insert adds: one row, below the last of its family, which is then being retired. */
  ghost predicate Appends(v: Server, tid: nat, v': Server) {
    && tid in v.calls && v.calls[tid].InsertChild? && v.calls[tid].sess.id in v.w.rows
    && var s, c := v.calls[tid].sess.id, v.calls[tid].minted.sessionId;
    && c !in v.w.rows && v'.w.rows.Keys == v.w.rows.Keys + {c}
    && v'.w.rows[c].id == c && v'.w.rows[c].parentId == Some(s)
    && v'.w.rows[c].familyId == v.w.rows[s].familyId && v'.w.rows[c].userId == v.w.rows[s].userId
    && (forall id :: id in v.w.rows ==> v'.w.rows[id] == v.w.rows[id])
    && Swapping(v', s)
    && v'.calls.Keys == v.calls.Keys && v'.calls[tid].RevokeParent?
    && (forall k :: k in v.calls && k != tid ==> v'.calls[k] == v.calls[k])
  }

  lemma InsertAppends(v: Server, tid: nat)
    requires CanMove(v, Advance(tid)) && v.calls[tid].InsertChild? && !Moved(v, Advance(tid)).calls[tid].Finished?
    requires Remembers(v.w.rows, v.calls[tid])
    ensures Appends(v, tid, Moved(v, Advance(tid)))
  {
    assert Moved(v, Advance(tid)).calls[tid].sess.id == v.calls[tid].sess.id;
  }

  lemma AppendKeepsApart(v: Server, tid: nat, v': Server, pos: map<string, nat>, a: string, b: string)
    requires ChainedBut(v, pos) && Appends(v, tid, v') && v.calls[tid].sess.id in pos
    requires a in v'.w.rows && b in v'.w.rows
    requires a in v.w.rows && Retired(v, a) ==> Retired(v', a)
    ensures ApartBut(v', pos[v.calls[tid].minted.sessionId := pos[v.calls[tid].sess.id] + 1], a, b)
  {
    var s, c := v.calls[tid].sess.id, v.calls[tid].minted.sessionId;
    assert a in v.w.rows.Keys + {c} && b in v.w.rows.Keys + {c};
    if a != c && b != c {
      assert ApartBut(v, pos, a, b);
    } else if b != c {
      assert LastOfFamily(v, pos, tid, b);
    } else if a != c {
      assert LastOfFamily(v, pos, tid, a) && ApartBut(v, pos, a, s) && PlacedAt(v.w.rows, pos, a);
    }
  }

  lemma AppendKeepsLast(v: Server, tid: nat, v': Server, pos: map<string, nat>, k: nat, b: string)
    requires ChainedBut(v, pos) && Appends(v, tid, v') && v.calls[tid].sess.id in pos && NoOverlap(v)
    requires b in v'.w.rows
    ensures LastOfFamily(v', pos[v.calls[tid].minted.sessionId := pos[v.calls[tid].sess.id] + 1], k, b)
  {
    var s, c := v.calls[tid].sess.id, v.calls[tid].minted.sessionId;
    assert b in v.w.rows.Keys + {c};
    if k in v.calls && k != tid && AboutToInsert(v.calls[k]) {
      var s' := v.calls[k].sess.id;
      assert Remembers(v.w.rows, v.calls[k]);
      assert Rotating(v, k, s') && Rotating(v, tid, s);
      assert LastOfFamily(v, pos, k, s) && LastOfFamily(v, pos, tid, s') && ApartBut(v, pos, s, s');
      if b != c { assert LastOfFamily(v, pos, k, b); }
    }
  }

  lemma InsertKeepsChains(v: Server, tid: nat, pos: map<string, nat>) returns (pos': map<string, nat>)
    requires ChainedBut(v, pos) && NoOverlap(v)
    requires CanMove(v, Advance(tid)) && v.calls[tid].InsertChild? && !Moved(v, Advance(tid)).calls[tid].Finished?
    ensures ChainedBut(Moved(v, Advance(tid)), pos')
  {
    var m, v' := Advance(tid), Moved(v, Advance(tid));
    assert Remembers(v.w.rows, v.calls[tid]);
    var s, c := v.calls[tid].sess.id, v.calls[tid].minted.sessionId;
    PlacedIsKeyed(v.w.rows, pos);
    InsertAppends(v, tid);
    MoveKeepsMemory(v, m);
    assert PlacedAt(v.w.rows, pos, s);
    pos' := pos[c := pos[s] + 1];
    forall id | id in v'.w.rows ensures PlacedAt(v'.w.rows, pos', id) {
      assert id in v.w.rows.Keys + {c};
      if id != c { assert PlacedAt(v.w.rows, pos, id); }
    }
    forall a, b | a in v'.w.rows && b in v'.w.rows ensures ApartBut(v', pos', a, b) {
      if a in v.w.rows && Retired(v, a) { RetiredStays(v, m, a); }
      AppendKeepsApart(v, tid, v', pos, a, b);
    }
    forall k, b | b in v'.w.rows ensures LastOfFamily(v', pos', k, b) {
      AppendKeepsLast(v, tid, v', pos, k, b);
    }
  }

  lemma MoveKeepsChains(v: Server, m: Move, pos: map<string, nat>) returns (pos': map<string, nat>)
    requires ChainedBut(v, pos) && CanMove(v, m) && NoOverlap(v) && NoOverlap(Moved(v, m))
    ensures ChainedBut(Moved(v, m), pos')
  {
    if m.Advance? && v.calls[m.tid].InsertChild? && !Moved(v, m).calls[m.tid].Finished? {
      pos' := InsertKeepsChains(v, m.tid, pos);
    } else if m.Other? && m.s.Login? && LoginReply(v.w, m.s).0.Done? {
      pos' := LoginKeepsChains(v, m.s, pos);
    } else {
      assert Moved(v, m).w.rows.Keys == v.w.rows.Keys;
      QuietMoveKeepsChains(v, m, pos);
      pos' := pos;
    }
  }

  lemma {:induction false} MovesKeepChains(v: Server, ms: seq<Move>, pos: map<string, nat>) returns (pos': map<string, nat>)
    requires ChainedBut(v, pos) && ValidMoves(v, ms) && NeverOverlap(v, ms)
    ensures ChainedBut(MovedAll(v, ms), pos')
    decreases |ms|
  {
    if ms == [] {
      pos' := pos;
    } else {
      var mid := MoveKeepsChains(v, ms[0], pos);
      pos' := MovesKeepChains(Moved(v, ms[0]), ms[1..], mid);
    }
  }

  /** What the chains say of two sessions, a rotation between its create and its revoke counting as having revoked. */
  ghost predicate RelatedBut(v: Server, a: string, b: string)
    requires a in v.w.rows && b in v.w.rows
  {
    var rows := v.w.rows;
    && (rows[a].parentId == Some(b) ==>
          rows[a].familyId == rows[b].familyId && rows[a].userId == rows[b].userId && Retired(v, b))
    && (rows[a].parentId.Some? && rows[a].parentId == rows[b].parentId ==> a == b)
    && (forall n: nat :: Descends(rows, a, a, n) ==> n == 0)
    && (rows[a].familyId == rows[b].familyId ==>
          exists n: nat :: Descends(rows, a, b, n) || Descends(rows, b, a, n))
    && (rows[a].familyId == rows[b].familyId && !Retired(v, a) && !Retired(v, b) ==> a == b)
  }

  /**
   As long as no two rotations of one session overlap, statements may interleave
   in any other way and every family stays one line of descent with at most one
   session that is neither revoked nor just being replaced.
   */
  lemma ChainsSurviveWithoutOverlap(v: Server, ms: seq<Move>, a: string, b: string)
    requires Initial(v.w) && v.calls == map[] && ValidMoves(v, ms) && NeverOverlap(v, ms)
    requires a in MovedAll(v, ms).w.rows && b in MovedAll(v, ms).w.rows
    ensures RelatedBut(MovedAll(v, ms), a, b)
  {
    var e := MovedAll(v, ms);
    var rows := e.w.rows;
    var pos := MovesKeepChains(v, ms, map[]);
    assert PlacedAt(rows, pos, a) && PlacedAt(rows, pos, b);
    assert ApartBut(e, pos, a, b) && ApartBut(e, pos, b, a);
    forall n: nat | Descends(rows, a, a, n) ensures n == 0 {
      DescentGoesUp(rows, pos, a, a, n);
    }
    if rows[a].familyId == rows[b].familyId {
      forall c, d | c in rows && d in rows && rows[c].familyId == rows[d].familyId && c in pos && d in pos && pos[c] == pos[d]
        ensures c == d
      {
        assert ApartBut(e, pos, c, d);
      }
      FamilyIsOneLine(rows, pos, a, b);
    }
  }
}
