/**
 `Rotate` uses no transaction: between any two of its SQL statements other
 calls may run. Here each statement is a step of its own and any number of
 rotations are under way at once. The one-chain picture is then lost; this
 file proves what survives and exactly how far the rest can break.
 */
module SessionInterleaving {
  import opened Prelude
  import opened SessionStore
  import opened AccessTokens
  import opened SessionManager
  import opened SessionChains

  /** Where a rotation stands: the statement it runs next, with what it has read. */
  datatype Pc =
    | ReadSession(presented: RefreshToken, minted: RefreshToken)
    | CountChildren(sess: Session)
    | BurnFamily(sess: Session)
    | DropExpired(sess: Session)
    | ReadUser(sess: Session, minted: RefreshToken)
    | InsertChild(sess: Session, minted: RefreshToken, role: string)
    | RevokeParent(sess: Session, minted: RefreshToken, role: string)
    | Finished(reply: Reply)

  datatype Server = Server(w: World, calls: map<nat, Pc>)

  datatype Move =
    | Call(tid: nat, presented: RefreshToken, minted: RefreshToken)
    | Advance(tid: nat)
    | Other(s: Step)

  predicate CanMove(v: Server, m: Move) {
    match m
    case Call(tid, _, _) => tid !in v.calls
    case Advance(tid) => tid in v.calls && !v.calls[tid].Finished?
    case Other(s) => !s.Refresh? && Enabled(v.w, s)
  }

  /** One statement of one rotation, and the branches up to the next one. */
  function Statement(w: World, pc: Pc): (r: (World, Pc))
    requires !pc.Finished?
  {
    match pc
    case ReadSession(t, minted) =>
      if !Possesses(w.rows, t) then (w, Finished(SessionInvalid))
      else
        var sess := w.rows[t.sessionId];
        if sess.Revoked() then (w, CountChildren(sess))
        else if Expired(sess, w.now) then (w, DropExpired(sess))
        else (w, ReadUser(sess, minted))
    case CountChildren(sess) =>
      (w, if HasChildren(w.rows, sess.id) then BurnFamily(sess) else Finished(SessionInvalid))
    case BurnFamily(sess) =>
      (w.(rows := FamilyRevoked(w.rows, sess.familyId, w.now)), Finished(SessionReuse))
    case DropExpired(sess) =>
      (w.(rows := SessionRevoked(w.rows, sess.id, w.now)), Finished(SessionInvalid))
    case ReadUser(sess, minted) =>
      (w, if sess.userId in w.users then InsertChild(sess, minted, w.users[sess.userId]) else Finished(SessionInvalid))
    case InsertChild(sess, minted, role) =>
      var p := ChildParams(sess, minted, w.now);
      (w.(rows := Inserted(w.rows, w.users.Keys, p, w.now)),
       if Insertable(w.rows, w.users.Keys, p) then RevokeParent(sess, minted, role) else Finished(InternalError))
    case RevokeParent(sess, minted, role) =>
      var r := Done(IssueResult(IssueAccess(sess.userId, minted.sessionId, role, w.now), minted, sess.familyId, w.now + REFRESH_TTL));
      (w.(rows := SessionRevoked(w.rows, sess.id, w.now), issued := Recorded(w.issued, r)), Finished(r))
  }

  function Moved(v: Server, m: Move): Server
    requires CanMove(v, m)
  {
    match m
    case Call(tid, t, minted) => v.(calls := v.calls[tid := ReadSession(t, minted)])
    case Advance(tid) =>
      var (w, pc) := Statement(v.w, v.calls[tid]);
      Server(w, v.calls[tid := pc])
    case Other(s) => v.(w := Next(v.w, s))
  }

  predicate ValidMoves(v: Server, ms: seq<Move>)
    decreases |ms|
  {
    ms == [] || (CanMove(v, ms[0]) && ValidMoves(Moved(v, ms[0]), ms[1..]))
  }

  function MovedAll(v: Server, ms: seq<Move>): Server
    requires ValidMoves(v, ms)
    decreases |ms|
  {
    if ms == [] then v else MovedAll(Moved(v, ms[0]), ms[1..])
  }

  // ---- the fine machine refines to the atomic call when left alone ----

  function RunAlone(w: World, pc: Pc, fuel: nat): (World, Pc)
    decreases fuel
  {
    if fuel == 0 || pc.Finished? then (w, pc)
    else var (w', pc') := Statement(w, pc); RunAlone(w', pc', fuel - 1)
  }

  /** Undisturbed, the statements of a rotation add up to the atomic step, reply and table alike, in at most four statements. */
  lemma UndisturbedRotationIsAtomic(w: World, t: RefreshToken, minted: RefreshToken)
    requires Keyed(w.rows)
    ensures var (w', pc) := RunAlone(w, ReadSession(t, minted), 4);
            && pc == Finished(RefreshReply(w, Refresh(t, minted)).0)
            && w' == Next(w, Refresh(t, minted))
  {
    var (w1, pc1) := Statement(w, ReadSession(t, minted));
    assert RunAlone(w, ReadSession(t, minted), 4) == RunAlone(w1, pc1, 3);
    if !pc1.Finished? {
      var (w2, pc2) := Statement(w1, pc1);
      assert RunAlone(w1, pc1, 3) == RunAlone(w2, pc2, 2);
      if !pc2.Finished? {
        var (w3, pc3) := Statement(w2, pc2);
        assert RunAlone(w2, pc2, 2) == RunAlone(w3, pc3, 1);
        if !pc3.Finished? {
          var (w4, pc4) := Statement(w3, pc3);
          assert RunAlone(w3, pc3, 1) == RunAlone(w4, pc4, 0);
        }
      }
    }
  }

  /** So the end of an undisturbed rotation, too, is what the columns alone tell. */
  lemma UndisturbedRotationSpelledOut(w: World, t: RefreshToken, minted: RefreshToken)
    requires Keyed(w.rows)
    ensures var (w', pc) := RunAlone(w, ReadSession(t, minted), 4);
            && pc.Finished?
            && RotateReplies(w.rows, w.users, t, minted, w.now, pc.reply)
            && RotateLeaves(w.rows, t, minted, w.now, pc.reply, w'.rows)
  {
    UndisturbedRotationIsAtomic(w, t, minted);
    RotateSpelledOut(w.rows, w.users, t, minted, w.now);
  }

  // ---- what survives any interleaving ----

  ghost predicate RankedAt(rows: Table, rank: map<string, nat>, id: string)
    requires id in rows
  {
    && id in rank
    && rows[id].id == id
    && match rows[id].parentId
       case None => true
       case Some(p) =>
         && p in rows && p in rank
         && rows[p].familyId == rows[id].familyId
         && rows[p].userId == rows[id].userId
         && rank[p] < rank[id]
  }

  /** Parent links stay within a family and a user and always lead to a smaller rank, so they cannot cycle. */
  ghost predicate Ranked(rows: Table, rank: map<string, nat>) {
    forall id {:trigger RankedAt(rows, rank, id)} :: id in rows ==> RankedAt(rows, rank, id)
  }

  /** The row a rotation read is still there, at most revoked since. */
  ghost predicate Remembers(rows: Table, pc: Pc) {
    pc.ReadSession? || pc.Finished? ||
    (&& pc.sess.id in rows
     && rows[pc.sess.id].SameIdentity(pc.sess)
     && (pc.sess.Revoked() ==> rows[pc.sess.id].Revoked()))
  }

  /** A rotation stands between creating a child of `id` and revoking `id`. */
  ghost predicate Swapping(v: Server, id: string) {
    exists tid :: tid in v.calls && v.calls[tid].RevokeParent? && v.calls[tid].sess.id == id
  }

  ghost predicate ParentSettled(v: Server, id: string)
    requires id in v.w.rows
  {
    v.w.rows[id].parentId.Some? ==>
      var p := v.w.rows[id].parentId.value;
      p in v.w.rows && (v.w.rows[p].Revoked() || Swapping(v, p))
  }

  /** The foreign key to users. */
  ghost predicate Owned(w: World) {
    forall id :: id in w.rows ==> w.rows[id].userId in w.users
  }

  ghost predicate Sound(v: Server, rank: map<string, nat>) {
    && Ranked(v.w.rows, rank)
    && Owned(v.w)
    && (forall tid :: tid in v.calls ==> Remembers(v.w.rows, v.calls[tid]))
    && (forall id {:trigger ParentSettled(v, id)} :: id in v.w.rows ==> ParentSettled(v, id))
  }

  lemma SoundIsKeyed(v: Server, rank: map<string, nat>)
    requires Ranked(v.w.rows, rank)
    ensures Keyed(v.w.rows)
  {
    forall id | id in v.w.rows ensures v.w.rows[id].id == id {
      assert RankedAt(v.w.rows, rank, id);
    }
  }

  lemma StatementGrows(w: World, pc: Pc)
    requires Keyed(w.rows) && !pc.Finished?
    ensures Grows(w.rows, Statement(w, pc).0.rows) && Keyed(Statement(w, pc).0.rows)
  {
    match pc
    case BurnFamily(s) => RevokingGrows(w.rows, s, w.now);
    case DropExpired(s) => RevokingGrows(w.rows, s, w.now);
    case InsertChild(s, minted, _) => InsertingGrows(w.rows, w.users.Keys, ChildParams(s, minted, w.now), w.now);
    case RevokeParent(s, _, _) => RevokingGrows(w.rows, s, w.now);
    case _ =>
  }

  lemma MoveGrows(v: Server, m: Move)
    requires Keyed(v.w.rows) && CanMove(v, m)
    ensures Grows(v.w.rows, Moved(v, m).w.rows) && Keyed(Moved(v, m).w.rows)
  {
    match m
    case Other(s) => NextGrows(v.w, s);
    case Advance(tid) => StatementGrows(v.w, v.calls[tid]);
    case Call(_, _, _) =>
  }

  /** The row a move adds, if any, is a root or hangs below the row its rotation read. */
  ghost predicate AddsAtMost(v: Server, m: Move, v': Server) {
    forall id :: id in v'.w.rows && id !in v.w.rows ==>
      && v'.w.rows[id].id == id
      && (v'.w.rows[id].parentId.None? ||
          (m.Advance? && m.tid in v.calls && v.calls[m.tid].InsertChild? && m.tid in v'.calls && v'.calls[m.tid].RevokeParent? &&
           var s := v.calls[m.tid].sess;
           && v'.calls[m.tid].sess == s
           && v'.w.rows[id].parentId == Some(s.id)
           && v'.w.rows[id].familyId == s.familyId
           && v'.w.rows[id].userId == s.userId))
  }

  lemma MoveAdds(v: Server, m: Move)
    requires Keyed(v.w.rows) && CanMove(v, m)
    ensures AddsAtMost(v, m, Moved(v, m))
  {
  }

  lemma MoveKeepsRanks(v: Server, m: Move, rank: map<string, nat>) returns (rank': map<string, nat>)
    requires Sound(v, rank) && CanMove(v, m)
    ensures Ranked(Moved(v, m).w.rows, rank')
  {
    var rows, rows' := v.w.rows, Moved(v, m).w.rows;
    SoundIsKeyed(v, rank);
    MoveGrows(v, m);
    MoveAdds(v, m);
    var top := if m.Advance? && v.calls[m.tid].InsertChild? && v.calls[m.tid].sess.id in rank
               then rank[v.calls[m.tid].sess.id] + 1 else 0;
    rank' := map id | id in rows' :: if id in rows && id in rank then rank[id] else top;
    if m.Advance? && v.calls[m.tid].InsertChild? {
      assert RankedAt(rows, rank, v.calls[m.tid].sess.id);
    }
    forall id | id in rows' ensures RankedAt(rows', rank', id) {
      if id in rows {
        assert RankedAt(rows, rank, id);
        assert rows'[id].SameIdentity(rows[id]);
        if rows[id].parentId.Some? {
          var p := rows[id].parentId.value;
          assert RankedAt(rows, rank, p);
          assert rows'[p].SameIdentity(rows[p]);
        }
      } else if rows'[id].parentId.Some? {
        var s := v.calls[m.tid].sess;
        assert rows'[s.id].SameIdentity(rows[s.id]);
      }
    }
  }

  lemma MoveKeepsOwned(v: Server, m: Move)
    requires Keyed(v.w.rows) && Owned(v.w) && CanMove(v, m)
    ensures Owned(Moved(v, m).w)
  {
    MoveGrows(v, m);
    var v' := Moved(v, m);
    forall id | id in v'.w.rows ensures v'.w.rows[id].userId in v'.w.users {
      if id in v.w.rows {
        assert v'.w.rows[id].SameIdentity(v.w.rows[id]);
      }
    }
  }

  lemma MoveKeepsMemory(v: Server, m: Move)
    requires Keyed(v.w.rows) && CanMove(v, m)
    requires forall tid :: tid in v.calls ==> Remembers(v.w.rows, v.calls[tid])
    ensures forall tid :: tid in Moved(v, m).calls ==> Remembers(Moved(v, m).w.rows, Moved(v, m).calls[tid])
  {
    MoveGrows(v, m);
    forall tid | tid in Moved(v, m).calls
      ensures Remembers(Moved(v, m).w.rows, Moved(v, m).calls[tid])
    {
      if tid in v.calls {
        assert Remembers(v.w.rows, v.calls[tid]);
      }
    }
  }

  lemma MoveKeepsSettled(v: Server, m: Move, rank: map<string, nat>, id: string)
    requires Sound(v, rank) && CanMove(v, m)
    requires id in Moved(v, m).w.rows
    ensures ParentSettled(Moved(v, m), id)
  {
    var v' := Moved(v, m);
    SoundIsKeyed(v, rank);
    MoveGrows(v, m);
    MoveAdds(v, m);
    if v'.w.rows[id].parentId.Some? {
      var p := v'.w.rows[id].parentId.value;
      if id in v.w.rows {
        assert ParentSettled(v, id);
        assert v'.w.rows[id].SameIdentity(v.w.rows[id]);
        if !v.w.rows[p].Revoked() {
          var tid :| tid in v.calls && v.calls[tid].RevokeParent? && v.calls[tid].sess.id == p;
          if m.Advance? && m.tid == tid {
            assert v'.w.rows[p].Revoked();
          } else {
            assert tid in v'.calls && v'.calls[tid] == v.calls[tid];
          }
        }
      } else {
        assert m.tid in v'.calls && v'.calls[m.tid].RevokeParent? && v'.calls[m.tid].sess.id == p;
        assert Remembers(v.w.rows, v.calls[m.tid]);
      }
    }
  }

  lemma MoveKeepsSound(v: Server, m: Move, rank: map<string, nat>) returns (rank': map<string, nat>)
    requires Sound(v, rank) && CanMove(v, m)
    ensures Sound(Moved(v, m), rank')
  {
    rank' := MoveKeepsRanks(v, m, rank);
    SoundIsKeyed(v, rank);
    MoveKeepsOwned(v, m);
    MoveKeepsMemory(v, m);
    forall id | id in Moved(v, m).w.rows ensures ParentSettled(Moved(v, m), id) {
      MoveKeepsSettled(v, m, rank, id);
    }
  }

  lemma {:induction false} MovesKeepSound(v: Server, ms: seq<Move>, rank: map<string, nat>) returns (rank': map<string, nat>)
    requires Sound(v, rank) && ValidMoves(v, ms)
    ensures Sound(MovedAll(v, ms), rank')
    decreases |ms|
  {
    if ms == [] {
      rank' := rank;
    } else {
      var mid := MoveKeepsSound(v, ms[0], rank);
      rank' := MovesKeepSound(Moved(v, ms[0]), ms[1..], mid);
    }
  }

  lemma {:induction false} MovesGrow(v: Server, ms: seq<Move>)
    requires Keyed(v.w.rows) && ValidMoves(v, ms)
    ensures Grows(v.w.rows, MovedAll(v, ms).w.rows) && Keyed(MovedAll(v, ms).w.rows)
    decreases |ms|
  {
    if ms != [] {
      MoveGrows(v, ms[0]);
      MovesGrow(Moved(v, ms[0]), ms[1..]);
      GrowsTransitive(v.w.rows, Moved(v, ms[0]).w.rows, MovedAll(v, ms).w.rows);
    }
  }

  lemma {:induction false} RankBoundsDescent(rows: Table, rank: map<string, nat>, a: string, b: string, n: nat)
    requires Ranked(rows, rank) && a in rows && Descends(rows, a, b, n)
    ensures b in rows && a in rank && b in rank && rank[b] + n <= rank[a]
    ensures rows[a].familyId == rows[b].familyId && rows[a].userId == rows[b].userId
    decreases n
  {
    assert RankedAt(rows, rank, a);
    if n > 0 {
      RankBoundsDescent(rows, rank, rows[a].parentId.value, b, n - 1);
    }
  }

  /**
   Whatever the interleaving: links never cycle and every ancestor is of the
   same family and user; and a session with a child is revoked, unless some
   rotation is just between creating a child of it and revoking it.
   */
  lemma LinksSurviveInterleaving(v: Server, ms: seq<Move>, a: string, b: string, n: nat)
    requires Initial(v.w) && v.calls == map[] && ValidMoves(v, ms)
    requires a in MovedAll(v, ms).w.rows && Descends(MovedAll(v, ms).w.rows, a, b, n)
    ensures var e := MovedAll(v, ms);
            && b in e.w.rows
            && e.w.rows[a].familyId == e.w.rows[b].familyId
            && e.w.rows[a].userId == e.w.rows[b].userId
            && (a == b ==> n == 0)
            && (n == 1 ==> e.w.rows[b].Revoked() || Swapping(e, b))
  {
    var e := MovedAll(v, ms);
    var rank := MovesKeepSound(v, ms, map[]);
    RankBoundsDescent(e.w.rows, rank, a, b, n);
    if n == 1 {
      assert ParentSettled(e, a);
      assert Descends(e.w.rows, e.w.rows[a].parentId.value, b, 0);
    }
  }

  /** Revocation is never undone and no row is rewritten or lost, between any two points of any interleaving. */
  lemma RevocationSurvivesInterleaving(v: Server, before: seq<Move>, after: seq<Move>)
    requires Initial(v.w) && v.calls == map[] && ValidMoves(v, before)
    requires ValidMoves(MovedAll(v, before), after)
    ensures Grows(MovedAll(v, before).w.rows, MovedAll(MovedAll(v, before), after).w.rows)
  {
    MovesGrow(v, before);
    MovesGrow(MovedAll(v, before), after);
  }

  // ---- what does not survive, and exactly when ----

  /** A rotation that has read an active session and not yet inserted its child. */
  predicate AboutToInsert(pc: Pc) {
    pc.ReadUser? || pc.InsertChild?
  }

  predicate CanRevive(pc: Pc, familyId: string) {
    AboutToInsert(pc) && pc.sess.familyId == familyId
  }

  ghost predicate Burned(v: Server, familyId: string) {
    && Dead(v.w.rows, familyId)
    && forall tid :: tid in v.calls ==> !CanRevive(v.calls[tid], familyId)
  }

  lemma MoveKeepsBurned(v: Server, m: Move, familyId: string)
    requires Keyed(v.w.rows) && CanMove(v, m) && Burned(v, familyId)
    ensures Burned(Moved(v, m), familyId)
  {
    MoveGrows(v, m);
    var id :| id in v.w.rows && v.w.rows[id].familyId == familyId;
    assert id in Moved(v, m).w.rows && Moved(v, m).w.rows[id].SameIdentity(v.w.rows[id]);
    if m.Other? {
      NextKeepsDead(v.w, m.s, familyId);
    } else if m.Advance? {
      assert !CanRevive(v.calls[m.tid], familyId);
    }
  }

  lemma {:induction false} MovesKeepBurned(v: Server, ms: seq<Move>, familyId: string)
    requires Keyed(v.w.rows) && ValidMoves(v, ms) && Burned(v, familyId)
    ensures Burned(MovedAll(v, ms), familyId)
    decreases |ms|
  {
    if ms != [] {
      MoveGrows(v, ms[0]);
      MoveKeepsBurned(v, ms[0], familyId);
      MovesKeepBurned(Moved(v, ms[0]), ms[1..], familyId);
    }
  }

  /** Whatever has become of the session it read, such a rotation can insert an active child of it. */
  lemma StalledInserts(v: Server, tid: nat) returns (ms: seq<Move>)
    requires Keyed(v.w.rows) && Owned(v.w) && tid in v.calls
    requires Remembers(v.w.rows, v.calls[tid]) && AboutToInsert(v.calls[tid])
    requires v.calls[tid].minted.sessionId !in v.w.rows
    ensures ValidMoves(v, ms)
    ensures var pc, e := v.calls[tid], MovedAll(v, ms);
            && e.w == v.w.(rows := v.w.rows[pc.minted.sessionId := NewRow(ChildParams(pc.sess, pc.minted, v.w.now), v.w.now)])
            && e.calls.Keys == v.calls.Keys
            && e.calls[tid].RevokeParent? && e.calls[tid].sess == pc.sess && e.calls[tid].minted == pc.minted
            && forall k :: k in v.calls && k != tid ==> e.calls[k] == v.calls[k]
  {
    assert v.w.rows[v.calls[tid].sess.id].SameIdentity(v.calls[tid].sess);
    ms := [];
    var mid := v;
    if v.calls[tid].ReadUser? {
      mid := Moved(v, Advance(tid));
    }
    ms := ExtendFront(mid, Advance(tid), []);
    if v.calls[tid].ReadUser? {
      ms := ExtendFront(v, Advance(tid), ms);
    }
  }

  /**
   Reuse detection ends a family exactly when no rotation is stalled between
   reading an active session of it and inserting the child: then it is dead in
   every continuation, and otherwise some continuation revives it.
   */
  lemma BurnIsFinalIffNoneStalled(v: Server, rank: map<string, nat>, familyId: string)
    requires Sound(v, rank) && Dead(v.w.rows, familyId)
    // ids still to be inserted are fresh
    requires forall tid :: tid in v.calls && CanRevive(v.calls[tid], familyId) ==>
               v.calls[tid].minted.sessionId !in v.w.rows
    ensures (forall tid :: tid in v.calls ==> !CanRevive(v.calls[tid], familyId)) <==>
            (forall ms :: ValidMoves(v, ms) ==> Dead(MovedAll(v, ms).w.rows, familyId))
  {
    SoundIsKeyed(v, rank);
    if tid :| tid in v.calls && CanRevive(v.calls[tid], familyId) {
      var ms := StalledInserts(v, tid);
      var rows, child := MovedAll(v, ms).w.rows, v.calls[tid].minted.sessionId;
      assert rows[child].familyId == familyId && !rows[child].Revoked();
    } else {
      forall ms | ValidMoves(v, ms) ensures Dead(MovedAll(v, ms).w.rows, familyId) {
        MovesKeepBurned(v, ms, familyId);
      }
    }
  }

  /** The family held a session of the user when the table was `before`. */
  ghost predicate KnownTo(before: Table, user: int, familyId: string) {
    exists id :: id in before && before[id].userId == user && before[id].familyId == familyId
  }

  /** Of the families the user had then, no session is active and no rotation is about to insert one. */
  ghost predicate ShutOut(before: Table, v: Server, user: int) {
    && Grows(before, v.w.rows)
    && (forall id :: id in v.w.rows && v.w.rows[id].userId == user && KnownTo(before, user, v.w.rows[id].familyId) ==>
          v.w.rows[id].Revoked())
    && (forall tid :: tid in v.calls && AboutToInsert(v.calls[tid]) ==>
          v.calls[tid].sess.userId != user || !KnownTo(before, user, v.calls[tid].sess.familyId))
  }

  /** A row added to a family the user had is the child some rotation was about to insert. */
  lemma MoveAddsNoneShutOut(before: Table, v: Server, m: Move, user: int, id: string)
    requires Keyed(v.w.rows) && CanMove(v, m) && ShutOut(before, v, user)
    requires id in Moved(v, m).w.rows && Moved(v, m).w.rows[id].userId == user
    requires KnownTo(before, user, Moved(v, m).w.rows[id].familyId)
    ensures id in v.w.rows
  {
    MoveAdds(v, m);
    var k :| k in before && before[k].userId == user && before[k].familyId == Moved(v, m).w.rows[id].familyId;
    assert v.w.rows[k].SameIdentity(before[k]);
  }

  lemma MoveKeepsShutOut(before: Table, v: Server, m: Move, user: int)
    requires Keyed(v.w.rows) && CanMove(v, m) && ShutOut(before, v, user)
    ensures ShutOut(before, Moved(v, m), user)
  {
    MoveGrows(v, m);
    var rows := Moved(v, m).w.rows;
    GrowsTransitive(before, v.w.rows, rows);
    forall id | id in rows && rows[id].userId == user && KnownTo(before, user, rows[id].familyId)
      ensures rows[id].Revoked()
    {
      MoveAddsNoneShutOut(before, v, m, user, id);
      assert rows[id].SameIdentity(v.w.rows[id]);
    }
  }

  lemma {:induction false} MovesKeepShutOut(before: Table, v: Server, ms: seq<Move>, user: int)
    requires Keyed(v.w.rows) && ValidMoves(v, ms) && ShutOut(before, v, user)
    ensures ShutOut(before, MovedAll(v, ms), user)
    decreases |ms|
  {
    if ms != [] {
      MoveGrows(v, ms[0]);
      MoveKeepsShutOut(before, v, ms[0], user);
      MovesKeepShutOut(before, Moved(v, ms[0]), ms[1..], user);
    }
  }

  /** Every session of `rows` that descends from one the user had in `before` is revoked. */
  ghost predicate DescendantsRevoked(before: Table, rows: Table, user: int) {
    forall id, root, n: nat :: id in rows && root in before && before[root].userId == user && Descends(rows, id, root, n) ==>
      rows[id].Revoked()
  }

  lemma ShutOutRevokesDescendants(before: Table, v: Server, rank: map<string, nat>, user: int)
    requires Ranked(v.w.rows, rank) && ShutOut(before, v, user)
    ensures DescendantsRevoked(before, v.w.rows, user)
  {
    var rows := v.w.rows;
    forall id, root, n: nat | id in rows && root in before && before[root].userId == user && Descends(rows, id, root, n)
      ensures rows[id].Revoked()
    {
      RankBoundsDescent(rows, rank, id, root, n);
      assert rows[root].SameIdentity(before[root]);
    }
  }

  /**
   A password change ends the user's sessions for good, descendants included,
   exactly when no rotation of the user stands between reading an active session
   and inserting the child: the handler revokes what is there, not what is coming.
   */
  lemma PasswordChangeIsFinalIffNoneStalled(v: Server, rank: map<string, nat>, user: int)
    requires Sound(v, rank)
    // ids still to be inserted are fresh
    requires forall tid :: tid in v.calls && AboutToInsert(v.calls[tid]) ==> v.calls[tid].minted.sessionId !in v.w.rows
    ensures var changed := Moved(v, Other(PasswordChange(user)));
            (forall tid :: tid in v.calls && AboutToInsert(v.calls[tid]) ==> v.calls[tid].sess.userId != user) <==>
            (forall ms :: ValidMoves(changed, ms) ==> DescendantsRevoked(changed.w.rows, MovedAll(changed, ms).w.rows, user))
  {
    var changed := Moved(v, Other(PasswordChange(user)));
    var before := changed.w.rows;
    var rank' := MoveKeepsSound(v, Other(PasswordChange(user)), rank);
    SoundIsKeyed(changed, rank');
    if tid :| tid in v.calls && AboutToInsert(v.calls[tid]) && v.calls[tid].sess.userId == user {
      var parent, child := v.calls[tid].sess.id, v.calls[tid].minted.sessionId;
      assert Remembers(before, changed.calls[tid]);
      var ms := StalledInserts(changed, tid);
      var rows := MovedAll(changed, ms).w.rows;
      assert Descends(rows, parent, parent, 0) && Descends(rows, child, parent, 1);
      assert !rows[child].Revoked();
    } else {
      forall ms | ValidMoves(changed, ms) ensures DescendantsRevoked(before, MovedAll(changed, ms).w.rows, user) {
        MovesKeepShutOut(before, changed, ms, user);
        var rank'' := MovesKeepSound(changed, ms, rank');
        ShutOutRevokesDescendants(before, MovedAll(changed, ms), rank'', user);
      }
    }
  }

  lemma {:induction false} MovesCompose(v: Server, a: seq<Move>, b: seq<Move>)
    requires ValidMoves(v, a) && ValidMoves(MovedAll(v, a), b)
    ensures ValidMoves(v, a + b) && MovedAll(v, a + b) == MovedAll(MovedAll(v, a), b)
    decreases |a|
  {
    if a == [] {
      assert a + b == b;
    } else {
      assert (a + b)[1..] == a[1..] + b;
      MovesCompose(Moved(v, a[0]), a[1..], b);
    }
  }

  /** A rotation that starts alone on a rotatable token gets as far as its insert without touching the table. */
  lemma ReachesInsert(v: Server, tid: nat, t: RefreshToken, minted: RefreshToken) returns (ms: seq<Move>)
    requires Keyed(v.w.rows) && Rotatable(v.w.rows, v.w.users.Keys, t, v.w.now) && tid !in v.calls
    ensures ValidMoves(v, ms)
    ensures MovedAll(v, ms) == Server(v.w, v.calls[tid :=
              InsertChild(v.w.rows[t.sessionId], minted, v.w.users[v.w.rows[t.sessionId].userId])])
  {
    var v1 := Moved(v, Call(tid, t, minted));
    var v2 := Moved(v1, Advance(tid));
    var v3 := Moved(v2, Advance(tid));
    ms := ExtendFront(v2, Advance(tid), []);
    ms := ExtendFront(v1, Advance(tid), ms);
    ms := ExtendFront(v, Call(tid, t, minted), ms);
    assert v3.calls == v.calls[tid := v3.calls[tid]];
  }

  /** From its insert on, a rotation adds its active child whatever has become of the parent it read. */
  lemma InsertsAndFinishes(v: Server, tid: nat) returns (ms: seq<Move>)
    requires Keyed(v.w.rows) && tid in v.calls && v.calls[tid].InsertChild?
    requires v.calls[tid].sess.id in v.w.rows && v.calls[tid].sess.userId in v.w.users
    requires v.calls[tid].minted.sessionId !in v.w.rows
    ensures ValidMoves(v, ms)
    ensures var pc, e := v.calls[tid], MovedAll(v, ms);
            && e.w.users == v.w.users
            && e.w.rows == SessionRevoked(v.w.rows[pc.minted.sessionId := NewRow(ChildParams(pc.sess, pc.minted, v.w.now), v.w.now)], pc.sess.id, v.w.now)
            && e.calls.Keys == v.calls.Keys && e.calls[tid].Finished?
            && forall k :: k in v.calls && k != tid ==> e.calls[k] == v.calls[k]
  {
    var v1 := Moved(v, Advance(tid));
    ms := ExtendFront(v1, Advance(tid), []);
    ms := ExtendFront(v, Advance(tid), ms);
  }

  /**
   Two rotations of one token that both read it before either writes leave two
   active children of one parent: the one-chain picture needs atomic calls.
   */
  lemma TwoLiveChildren(w: World, t: RefreshToken, m1: RefreshToken, m2: RefreshToken) returns (ms: seq<Move>)
    requires Keyed(w.rows) && Rotatable(w.rows, w.users.Keys, t, w.now)
    requires m1.sessionId !in w.rows && m2.sessionId !in w.rows && m1.sessionId != m2.sessionId
    ensures ValidMoves(Server(w, map[]), ms)
    ensures var rows := MovedAll(Server(w, map[]), ms).w.rows;
            && m1.sessionId in rows && m2.sessionId in rows
            && rows[m1.sessionId].parentId == rows[m2.sessionId].parentId == Some(t.sessionId)
            && !rows[m1.sessionId].Revoked() && !rows[m2.sessionId].Revoked()
            && forall tid :: tid in MovedAll(Server(w, map[]), ms).calls ==> MovedAll(Server(w, map[]), ms).calls[tid].Finished?
  {
    var v0 := Server(w, map[]);
    var a := ReachesInsert(v0, 0, t, m1);
    var v1 := MovedAll(v0, a);
    var b := ReachesInsert(v1, 1, t, m2);
    MovesCompose(v0, a, b);
    var v2 := MovedAll(v1, b);
    var c := InsertsAndFinishes(v2, 0);
    MovesCompose(v0, a + b, c);
    var v3 := MovedAll(v2, c);
    var d := InsertsAndFinishes(v3, 1);
    MovesCompose(v0, a + b + c, d);
    ms := a + b + c + d;
  }

  lemma ExtendFront(v: Server, m: Move, rest: seq<Move>) returns (ms: seq<Move>)
    requires CanMove(v, m) && ValidMoves(Moved(v, m), rest)
    ensures ms == [m] + rest && ValidMoves(v, ms) && MovedAll(v, ms) == MovedAll(Moved(v, m), rest)
  {
    ms := [m] + rest;
    assert ms[1..] == rest;
  }
}
