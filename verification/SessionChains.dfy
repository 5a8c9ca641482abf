/**
 The session protocol when every server call is one step: what each reachable
 table looks like, for every run of logins, rotations, logouts, password
 changes and passing time.
 */
module SessionChains {
  import opened Prelude
  import opened SessionStore
  import opened AccessTokens
  import opened SessionManager

  datatype World = World(
    rows: Table,
    users: map<int, string>,
    now: int,
    issued: set<Claims>      // every access token signed so far
  )

  datatype Step =
    | Login(userId: int, minted: RefreshToken, familyId: string)
    | Refresh(presented: RefreshToken, minted: RefreshToken)
    | Logout(sessionId: string)
    | PasswordChange(userId: int)
    | NewUser(userId: int, role: string)
    | Tick(d: nat)

  function Recorded(issued: set<Claims>, r: Reply): set<Claims> {
    if r.Done? then issued + {r.result.access} else issued
  }

  function LoginReply(w: World, s: Step): (Reply, Table)
    requires s.Login? && s.userId in w.users
  {
    IssueOutcome(w.rows, w.users, s.userId, w.users[s.userId], s.minted, s.familyId, w.now)
  }

  function RefreshReply(w: World, s: Step): (Reply, Table)
    requires s.Refresh?
  {
    RotateOutcome(w.rows, w.users, s.presented, s.minted, w.now)
  }

  /** Family ids are minted fresh; accounts are created once and never deleted. */
  predicate Enabled(w: World, s: Step) {
    match s
    case Login(u, _, f) => u in w.users && forall id :: id in w.rows ==> w.rows[id].familyId != f
    case NewUser(u, _) => u !in w.users
    case _ => true
  }

  function Next(w: World, s: Step): World
    requires Enabled(w, s)
  {
    match s
    case Login(_, _, _) =>
      var (r, rows) := LoginReply(w, s);
      w.(rows := rows, issued := Recorded(w.issued, r))
    case Refresh(_, _) =>
      var (r, rows) := RefreshReply(w, s);
      w.(rows := rows, issued := Recorded(w.issued, r))
    case Logout(id) => w.(rows := SessionRevoked(w.rows, id, w.now))
    case PasswordChange(u) => w.(rows := UserRevoked(w.rows, u, w.now))
    case NewUser(u, role) => w.(users := w.users[u := role])
    case Tick(d) => w.(now := w.now + d)
  }

  /** What each step does, told from the columns: nothing but rows, tokens issued, accounts and the clock, and those as follows. */
  ghost predicate StepSays(w: World, s: Step, w': World) {
    var marked := Some(w.now / 1_000_000_000);
    match s
    case Login(u, minted, f) =>
      if u !in w.users || minted.sessionId in w.rows then w' == w
      else
        && w'.rows == w.rows[minted.sessionId := Session(minted.sessionId, u, Sha256(minted.secret), f, None,
                                                        w.now / 1_000_000_000, w.now / 1_000_000_000 + 604_800, None)]
        && w'.issued == w.issued + {Claims(Access, u, minted.sessionId, w.users[u], w.now / 1_000_000_000 - 1, w.now / 1_000_000_000 + 900)}
        && w'.users == w.users && w'.now == w.now
    case Refresh(t, minted) =>
      && RotateReplies(w.rows, w.users, t, minted, w.now, RefreshReply(w, s).0)
      && RotateLeaves(w.rows, t, minted, w.now, RefreshReply(w, s).0, w'.rows)
      && w'.issued == (if RefreshReply(w, s).0.Done? then w.issued + {RefreshReply(w, s).0.result.access} else w.issued)
      && w'.users == w.users && w'.now == w.now
    case Logout(id) =>
      && w' == w.(rows := w'.rows) && w'.rows.Keys == w.rows.Keys
      && forall k :: k in w.rows ==> w'.rows[k] == if k == id && w.rows[k].revokedAt == None then w.rows[k].(revokedAt := marked) else w.rows[k]
    case PasswordChange(u) =>
      && w' == w.(rows := w'.rows) && w'.rows.Keys == w.rows.Keys
      && forall k :: k in w.rows ==>
           w'.rows[k] == if w.rows[k].userId == u && w.rows[k].revokedAt == None then w.rows[k].(revokedAt := marked) else w.rows[k]
    case NewUser(u, role) => w' == w.(users := w.users[u := role])
    case Tick(d) => w' == w.(now := w.now + d)
  }

  lemma StepSpelledOut(w: World, s: Step)
    requires Keyed(w.rows) && Enabled(w, s)
    ensures StepSays(w, s, Next(w, s))
  {
    if s.Refresh? {
      RotateSpelledOut(w.rows, w.users, s.presented, s.minted, w.now);
    }
  }

  predicate ValidRun(w: World, run: seq<Step>)
    decreases |run|
  {
    run == [] || (Enabled(w, run[0]) && ValidRun(Next(w, run[0]), run[1..]))
  }

  function After(w: World, run: seq<Step>): World
    requires ValidRun(w, run)
    decreases |run|
  {
    if run == [] then w else After(Next(w, run[0]), run[1..])
  }

  predicate Initial(w: World) {
    w.rows == map[] && w.issued == {}
  }

  // ---- parent chains ----

  /** `pos` places a session one beyond its parent, a root at 0; parent and child share family and user. */
  ghost predicate PlacedAt(rows: Table, pos: map<string, nat>, id: string)
    requires id in rows
  {
    && id in pos
    && rows[id].id == id
    && match rows[id].parentId
       case None => pos[id] == 0
       case Some(p) =>
         && p in rows && p in pos
         && rows[p].familyId == rows[id].familyId
         && rows[p].userId == rows[id].userId
         && pos[id] == pos[p] + 1
  }

  ghost predicate Placed(rows: Table, pos: map<string, nat>) {
    forall id {:trigger PlacedAt(rows, pos, id)} :: id in rows ==> PlacedAt(rows, pos, id)
  }

  /** Two sessions of one family never share a place, and an active one is the last. */
  ghost predicate Apart(rows: Table, pos: map<string, nat>, a: string, b: string)
    requires a in rows && b in rows
  {
    rows[a].familyId == rows[b].familyId && a in pos && b in pos ==>
      && (a != b ==> pos[a] != pos[b])
      && (!rows[a].Revoked() ==> pos[b] <= pos[a])
  }

  ghost predicate OneChainPerFamily(rows: Table, pos: map<string, nat>) {
    forall a, b {:trigger Apart(rows, pos, a, b)} :: a in rows && b in rows ==> Apart(rows, pos, a, b)
  }

  ghost predicate Chained(rows: Table, pos: map<string, nat>) {
    Placed(rows, pos) && OneChainPerFamily(rows, pos)
  }

  /** Revoking keeps the chains, whichever rows it marks. */
  lemma RevokingKeepsChains(rows: Table, after: Table, pos: map<string, nat>)
    requires Chained(rows, pos) && Grows(rows, after) && after.Keys == rows.Keys
    ensures Chained(after, pos)
  {
    forall id | id in after ensures PlacedAt(after, pos, id) {
      assert id in rows.Keys && PlacedAt(rows, pos, id);
    }
    forall a, b | a in after && b in after ensures Apart(after, pos, a, b) {
      assert a in rows.Keys && b in rows.Keys && Apart(rows, pos, a, b);
    }
  }

  /** A new row keeps the chains when it takes a free last place of its family and its family's active row steps down. */
  lemma AppendKeepsChains(rows: Table, pos: map<string, nat>, row: Session, after: Table, place: nat)
    requires Chained(rows, pos) && row.id !in rows
    requires Grows(rows, after) && after.Keys == rows.Keys + {row.id} && after[row.id] == row
    requires PlacedAt(after, pos[row.id := place], row.id)
    requires forall id :: id in rows && rows[id].familyId == row.familyId ==>
               id in pos && pos[id] < place && after[id].Revoked()
    ensures Chained(after, pos[row.id := place])
  {
    var pos' := pos[row.id := place];
    forall id | id in after ensures PlacedAt(after, pos', id) {
      if id != row.id {
        assert id in rows.Keys && PlacedAt(rows, pos, id);
      }
    }
    forall a, b | a in after && b in after ensures Apart(after, pos', a, b) {
      if a != row.id && b != row.id {
        assert a in rows.Keys && b in rows.Keys && Apart(rows, pos, a, b);
      }
    }
  }

  lemma RotationKeepsChains(rows: Table, pos: map<string, nat>, s: Session, minted: RefreshToken, now: int) returns (pos': map<string, nat>)
    requires Chained(rows, pos)
    requires s.id in rows && rows[s.id] == s && !s.Revoked() && minted.sessionId !in rows
    ensures Chained(SessionRevoked(rows[minted.sessionId := NewRow(ChildParams(s, minted, now), now)], s.id, now), pos')
  {
    assert PlacedAt(rows, pos, s.id);
    var row := NewRow(ChildParams(s, minted, now), now);
    var after := SessionRevoked(rows[row.id := row], s.id, now);
    forall id | id in rows && rows[id].familyId == s.familyId
      ensures id in pos && pos[id] < pos[s.id] + 1 && after[id].Revoked()
    {
      assert PlacedAt(rows, pos, id) && Apart(rows, pos, s.id, id) && Apart(rows, pos, id, s.id);
    }
    AppendKeepsChains(rows, pos, row, after, pos[s.id] + 1);
    pos' := pos[row.id := pos[s.id] + 1];
  }

  lemma RefreshKeepsChains(w: World, t: RefreshToken, minted: RefreshToken, pos: map<string, nat>) returns (pos': map<string, nat>)
    requires Chained(w.rows, pos)
    ensures Chained(Next(w, Refresh(t, minted)).rows, pos')
  {
    assert t.sessionId in w.rows ==> PlacedAt(w.rows, pos, t.sessionId);
    if RefreshReply(w, Refresh(t, minted)).0.Done? {
      pos' := RotationKeepsChains(w.rows, pos, w.rows[t.sessionId], minted, w.now);
    } else {
      RevokingKeepsChains(w.rows, Next(w, Refresh(t, minted)).rows, pos);
      pos' := pos;
    }
  }

  lemma NextKeepsChains(w: World, s: Step, pos: map<string, nat>) returns (pos': map<string, nat>)
    requires Chained(w.rows, pos) && Enabled(w, s)
    ensures Chained(Next(w, s).rows, pos')
  {
    pos' := pos;
    match s
    case Login(u, minted, f) =>
      if LoginReply(w, s).0.Done? {
        var row := NewRow(RootParams(u, minted, f, w.now), w.now);
        AppendKeepsChains(w.rows, pos, row, Next(w, s).rows, 0);
        pos' := pos[row.id := 0];
      }
    case Refresh(t, minted) =>
      pos' := RefreshKeepsChains(w, t, minted, pos);
    case Logout(_) => RevokingKeepsChains(w.rows, Next(w, s).rows, pos);
    case PasswordChange(_) => RevokingKeepsChains(w.rows, Next(w, s).rows, pos);
    case NewUser(_, _) =>
    case Tick(_) =>
  }

  lemma {:induction false} RunKeepsChains(w: World, run: seq<Step>, pos: map<string, nat>) returns (pos': map<string, nat>)
    requires Chained(w.rows, pos) && ValidRun(w, run)
    ensures Chained(After(w, run).rows, pos')
    decreases |run|
  {
    if run == [] {
      pos' := pos;
    } else {
      var mid := NextKeepsChains(w, run[0], pos);
      pos' := RunKeepsChains(Next(w, run[0]), run[1..], mid);
    }
  }

  /** `a` reaches `b` by `n` parent links. */
  predicate Descends(rows: Table, a: string, b: string, n: nat)
    decreases n
  {
    if n == 0 then a == b
    else a in rows && rows[a].parentId.Some? && Descends(rows, rows[a].parentId.value, b, n - 1)
  }

  lemma {:induction false} DescentGoesUp(rows: Table, pos: map<string, nat>, a: string, b: string, n: nat)
    requires Placed(rows, pos) && a in rows && Descends(rows, a, b, n)
    ensures b in rows && a in pos && b in pos && pos[a] == pos[b] + n && rows[a].familyId == rows[b].familyId && rows[a].userId == rows[b].userId
    decreases n
  {
    assert PlacedAt(rows, pos, a);
    if n > 0 {
      DescentGoesUp(rows, pos, rows[a].parentId.value, b, n - 1);
    }
  }

  /** Every session has an ancestor at each earlier place of its family. */
  lemma {:induction false} AncestorAt(rows: Table, pos: map<string, nat>, a: string, k: nat) returns (b: string)
    requires Placed(rows, pos) && a in rows && a in pos && k <= pos[a]
    ensures b in rows && b in pos && pos[b] == k && rows[b].familyId == rows[a].familyId && Descends(rows, a, b, pos[a] - k)
    decreases pos[a]
  {
    assert PlacedAt(rows, pos, a);
    if k == pos[a] {
      b := a;
    } else {
      b := AncestorAt(rows, pos, rows[a].parentId.value, k);
    }
  }

  /** What chains mean for two sessions of a table. */
  ghost predicate Related(rows: Table, a: string, b: string)
    requires a in rows && b in rows
  {
    && (rows[a].parentId == Some(b) ==>
          rows[a].familyId == rows[b].familyId && rows[a].userId == rows[b].userId && rows[b].Revoked())
    && (rows[a].parentId.Some? && rows[a].parentId == rows[b].parentId ==> a == b)
    && (forall n: nat :: Descends(rows, a, a, n) ==> n == 0)
    && (rows[a].familyId == rows[b].familyId ==>
          exists n: nat :: Descends(rows, a, b, n) || Descends(rows, b, a, n))
    && (rows[a].familyId == rows[b].familyId && !rows[a].Revoked() && !rows[b].Revoked() ==> a == b)
  }

  ghost predicate OnePerPlace(rows: Table, pos: map<string, nat>) {
    forall a, b :: a in rows && b in rows && rows[a].familyId == rows[b].familyId && a in pos && b in pos && pos[a] == pos[b] ==> a == b
  }

  lemma FamilyIsOneLine(rows: Table, pos: map<string, nat>, a: string, b: string)
    requires Placed(rows, pos) && OnePerPlace(rows, pos)
    requires a in rows && b in rows && rows[a].familyId == rows[b].familyId
    ensures exists n: nat :: Descends(rows, a, b, n) || Descends(rows, b, a, n)
  {
    assert PlacedAt(rows, pos, a) && PlacedAt(rows, pos, b);
    if pos[b] <= pos[a] {
      var c := AncestorAt(rows, pos, a, pos[b]);
      assert Descends(rows, a, b, pos[a] - pos[b]);
    } else {
      var c := AncestorAt(rows, pos, b, pos[a]);
      assert Descends(rows, b, a, pos[b] - pos[a]);
    }
  }

  lemma ChainedRelates(rows: Table, pos: map<string, nat>, a: string, b: string)
    requires Chained(rows, pos) && a in rows && b in rows
    ensures Related(rows, a, b)
  {
    assert PlacedAt(rows, pos, a) && PlacedAt(rows, pos, b);
    assert Apart(rows, pos, a, b) && Apart(rows, pos, b, a);
    forall n: nat | Descends(rows, a, a, n) ensures n == 0 {
      DescentGoesUp(rows, pos, a, a, n);
    }
    if rows[a].familyId == rows[b].familyId {
      forall c, d | c in rows && d in rows && rows[c].familyId == rows[d].familyId && c in pos && d in pos && pos[c] == pos[d]
        ensures c == d
      {
        assert Apart(rows, pos, c, d);
      }
      FamilyIsOneLine(rows, pos, a, b);
    }
  }

  /**
   In every reachable table a session and its child share family and user and
   the session is revoked; it has no second child; links never cycle; of two
   sessions in one family one descends from the other; and at most one is active.
   */
  lemma FamiliesAreChains(w: World, run: seq<Step>, a: string, b: string)
    requires Initial(w) && ValidRun(w, run)
    requires a in After(w, run).rows && b in After(w, run).rows
    ensures Related(After(w, run).rows, a, b)
  {
    var pos := RunKeepsChains(w, run, map[]);
    ChainedRelates(After(w, run).rows, pos, a, b);
  }

  // ---- revocation is final ----

  lemma NextGrows(w: World, s: Step)
    requires Enabled(w, s) && Keyed(w.rows)
    ensures Grows(w.rows, Next(w, s).rows) && Keyed(Next(w, s).rows)
  {
    match s
    case Login(u, minted, f) => IssueGrows(w.rows, w.users, u, w.users[u], f, minted, w.now);
    case Refresh(t, minted) => RotateGrows(w.rows, w.users, t, minted, w.now);
    case Logout(_) =>
    case PasswordChange(_) =>
    case NewUser(_, _) =>
    case Tick(_) =>
  }

  lemma {:induction false} RunGrows(w: World, run: seq<Step>)
    requires ValidRun(w, run) && Keyed(w.rows)
    ensures Grows(w.rows, After(w, run).rows) && Keyed(After(w, run).rows)
    decreases |run|
  {
    if run != [] {
      NextGrows(w, run[0]);
      RunGrows(Next(w, run[0]), run[1..]);
      GrowsTransitive(w.rows, Next(w, run[0]).rows, After(w, run).rows);
    }
  }

  /** The family exists and none of its sessions is active. */
  ghost predicate Dead(rows: Table, familyId: string) {
    && (exists id :: id in rows && rows[id].familyId == familyId)
    && forall id :: id in rows && rows[id].familyId == familyId ==> rows[id].Revoked()
  }

  lemma NextKeepsDead(w: World, s: Step, familyId: string)
    requires Keyed(w.rows) && Enabled(w, s) && Dead(w.rows, familyId)
    ensures Dead(Next(w, s).rows, familyId)
  {
    var id :| id in w.rows && w.rows[id].familyId == familyId;
    NextGrows(w, s);
    assert id in Next(w, s).rows && Next(w, s).rows[id].SameIdentity(w.rows[id]);
  }

  lemma {:induction false} RunKeepsDead(w: World, run: seq<Step>, familyId: string)
    requires Keyed(w.rows) && ValidRun(w, run) && Dead(w.rows, familyId)
    ensures Dead(After(w, run).rows, familyId)
    decreases |run|
  {
    if run != [] {
      NextKeepsDead(w, run[0], familyId);
      NextGrows(w, run[0]);
      RunKeepsDead(Next(w, run[0]), run[1..], familyId);
    }
  }

  /**
   Replaying a rotated token ends its family for good: after any further run no
   session of the family is active and every token of the family is refused,
   while the replay itself leaves the rows of all other families as they were.
   */
  lemma ReplayEndsFamily(w: World, replay: Step, run: seq<Step>, t: RefreshToken, minted: RefreshToken)
    requires Keyed(w.rows) && replay.Refresh?
    requires RefreshReply(w, replay).0 == SessionReuse
    requires ValidRun(Next(w, replay), run)
    ensures var family := w.rows[replay.presented.sessionId].familyId;
            var end := After(Next(w, replay), run);
            && Dead(end.rows, family)
            && (t.sessionId in end.rows && end.rows[t.sessionId].familyId == family ==>
                  !RotateOutcome(end.rows, end.users, t, minted, end.now).0.Done?)
    ensures var family := w.rows[replay.presented.sessionId].familyId;
            forall id :: id in w.rows && w.rows[id].familyId != family ==>
              id in Next(w, replay).rows && Next(w, replay).rows[id] == w.rows[id]
  {
    var family := w.rows[replay.presented.sessionId].familyId;
    NextGrows(w, replay);
    var after := Next(w, replay).rows;
    assert replay.presented.sessionId in after && after[replay.presented.sessionId].familyId == family;
    RunKeepsDead(Next(w, replay), run, family);
  }
}
