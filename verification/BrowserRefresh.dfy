/**
 One browser tab against the server, and why it never trips reuse detection:
 every rotation runs statement by statement, the handlers of one statement
 whole; everything may interleave, with other clients acting on the same server.
 */
module BrowserRefresh {
  import opened Prelude
  import opened SessionStore
  import opened AccessTokens
  import opened SessionManager
  import opened SessionChains
  import opened SessionInterleaving
  import opened SessionForks
  import opened AccessControl
  import opened BrowserTab

  /** Choices the model leaves to the server's unmodelled inputs: who logs in, whether a check passes, which status a page returns. */
  datatype Oracle = Oracle(user: Option<int>, minted: RefreshToken, familyId: string, pass: bool, status: nat)

  /** The handlers of internal/api/auth, internal/api/settings and every other guarded route. */
  function HandleStep(w: World, c: Call, o: Oracle): Option<Step>
    requires c.Sent?
  {
    if c.kind == LoginCall then
      if o.user.Some? then Some(Login(o.user.value, o.minted, o.familyId)) else None
    else
      match RequireAuth(w.rows, w.users, Guard(c), w.now)
      case Unauthorized(_) => None
      case Admitted(claims, _) =>
        if !o.pass then None
        else match c.kind
             case LogoutCall => if c.jar.Some? then Some(Logout(c.jar.value.sessionId)) else None
             case PasswordCall => Some(PasswordChange(claims.userId))
             case _ => None
  }

  function Guard(c: Call): Option<RawToken>
    requires c.Sent?
  {
    if c.access.Some? then Some(RawToken.Signed(c.access.value)) else None
  }

  function HandleResponse(w: World, c: Call, o: Oracle): Response
    requires c.Sent?
    requires HandleStep(w, c, o).Some? ==> Enabled(w, HandleStep(w, c, o).value)
  {
    if c.kind == LoginCall then
      if o.user.None? then Response(o.status, Keep)
      else
        var r := LoginReply(w, Login(o.user.value, o.minted, o.familyId)).0;
        if r.Done? then Response(200, SetAuth(r.result.refresh, r.result.access)) else Response(500, Keep)
    else
      match RequireAuth(w.rows, w.users, Guard(c), w.now)
      case Unauthorized(_) => Response(401, Keep)
      case Admitted(_, _) =>
        if o.pass && c.kind == LogoutCall then Response(200, Clear)
        else Response(o.status, Keep)
  }

  /** refreshHandler on what Rotate said. */
  function RefreshResponse(r: Reply): Response {
    match r
    case Done(res) => Response(200, SetAuth(res.refresh, res.access))
    case SessionReuse => Response(401, Clear)
    case SessionInvalid => Response(401, Clear)
    case InternalError => Response(500, Keep)
  }

  datatype Sys = Sys(
    v: Server,
    tab: Tab,
    serving: Option<nat>,   // the rotation that serves the tab's refresh, while the handler runs
    abandoned: set<nat>,    // rotations that go on although the connection to the tab broke
    reuse: bool             // some rotation of the tab ended in ErrSessionReuse
  )

  datatype Event =
    | Start(cid: nat, kind: Kind)
    | Serve(cid: nat, oracle: Oracle)
    | Land(cid: nat)
    | ContinueCall(cid: nat)
    | ResumeCall(cid: nat)
    | LoseCall(cid: nat)              // request or response of an ordinary call lost
    | ReceiveRefresh(tid: nat, minted: RefreshToken)
    | AdvanceRefresh                  // one statement of the rotation that serves the tab
    | AnswerRefresh
    | LoseRefreshRequest              // the refresh never reaches the server
    | LoseRefreshAnswer               // given or still being worked on: the handler runs on regardless
    | AdvanceAbandoned(tid: nat)
    | LandRefresh
    | Resolve
    | ClearFlight
    | DropJar | DropAccess            // cookie lifetimes
    | Elsewhere(m: Move)              // other clients statement by statement, other users, the clock

  predicate AtWork(y: Sys) {
    y.serving.Some? && y.serving.value in y.v.calls && y.tab.flight.Asking?
  }

  /**
   An answer the tab can do without: the token sent is no longer in the jar, or
   is not replaced by this refresh and, if the session has yet to be read, by no other.
   */
  predicate Absorbable(y: Sys)
    requires y.tab.flight.Answered? || AtWork(y)
  {
    || y.tab.jar != y.tab.flight.sent
    || if y.tab.flight.Answered? then !y.tab.flight.response.cookies.SetAuth?
       else match y.v.calls[y.serving.value]
            case ReadSession(t, _) => Shut(y.v.w, t.sessionId)
            case CountChildren(_) => true
            case BurnFamily(_) => true
            case DropExpired(_) => true
            case Finished(r) => !r.Done?
            case _ => false
  }

  ghost predicate Possible(y: Sys, e: Event) {
    match e
    case Start(cid, _) => cid !in y.tab.calls
    case Serve(cid, o) =>
      && cid in y.tab.calls && y.tab.calls[cid].Sent?
      && var s := HandleStep(y.v.w, y.tab.calls[cid], o); s.Some? ==> Enabled(y.v.w, s.value)
    case Land(cid) => cid in y.tab.calls && y.tab.calls[cid].Replied?
    case ContinueCall(cid) => cid in y.tab.calls && y.tab.calls[cid].Landed?
    case ResumeCall(cid) => cid in y.tab.calls && y.tab.calls[cid].Resumed?
    case LoseCall(cid) => cid in y.tab.calls && (y.tab.calls[cid].Sent? || y.tab.calls[cid].Replied?)
    case ReceiveRefresh(tid, _) => y.tab.flight.Asking? && y.serving.None? && tid !in y.v.calls
    case AdvanceRefresh => AtWork(y) && !y.v.calls[y.serving.value].Finished?
    case AnswerRefresh => AtWork(y) && y.v.calls[y.serving.value].Finished?
    case LoseRefreshRequest => y.tab.flight.Asking? && y.serving.None?
    case LoseRefreshAnswer => (y.tab.flight.Answered? || AtWork(y)) && Absorbable(y)
    case AdvanceAbandoned(tid) => tid in y.abandoned && tid in y.v.calls && !y.v.calls[tid].Finished?
    case LandRefresh => y.tab.flight.Answered?
    case Resolve => y.tab.flight.Stored?
    case ClearFlight => y.tab.flight.Resolved?
    case DropJar => true
    case DropAccess => true
    case Elsewhere(m) => CanMove(y.v, m) && Foreign(y, m)
  }

  /** The token a not yet landed response will put into the jar. */
  ghost predicate Incoming(tab: Tab, cid: nat, t: RefreshToken) {
    && cid in tab.calls && tab.calls[cid].Replied?
    && tab.calls[cid].response.cookies.SetAuth?
    && tab.calls[cid].response.cookies.token == t
  }

  /** The token the refresh under way is going to deliver, once its child session is inserted. */
  function Delivery(y: Sys): Option<RefreshToken> {
    match y.tab.flight
    case Answered(_, r) => if r.cookies.SetAuth? then Some(r.cookies.token) else None
    case Asking(_) =>
      if !AtWork(y) then None
      else (match y.v.calls[y.serving.value]
            case RevokeParent(_, m, _) => Some(m)
            case Finished(Done(res)) => Some(res.refresh)
            case _ => None)
    case _ => None
  }

  predicate UnderWay(f: Flight) {
    f.Asking? || f.Answered?
  }

  function SentToken(f: Flight): Option<RefreshToken> {
    if UnderWay(f) then f.sent else None
  }

  /** The tab lives on this token: it holds it, has sent it, or is about to be given it. */
  ghost predicate Live(y: Sys, t: RefreshToken) {
    y.tab.jar == Some(t) || SentToken(y.tab.flight) == Some(t) || Delivery(y) == Some(t) || exists cid :: Incoming(y.tab, cid, t)
  }

  /** A rotation the tab has lost sight of is yet to look its session up with this token. */
  predicate Asks(y: Sys, tid: nat, t: RefreshToken) {
    tid in y.abandoned && tid in y.v.calls && y.v.calls[tid].ReadSession? && y.v.calls[tid].presented == t
  }

  /** Nobody else looks a session up with a token this tab lives on or has asked about. */
  ghost predicate Foreign(y: Sys, m: Move) {
    m.Advance? && m.tid in y.v.calls ==>
      && y.serving != Some(m.tid) && m.tid !in y.abandoned
      && (y.v.calls[m.tid].ReadSession? ==>
            !Live(y, y.v.calls[m.tid].presented) && forall k :: !Asks(y, k, y.v.calls[m.tid].presented))
  }

  /** The answer to a refresh never reaches the tab. */
  function Lost(y: Sys): Sys {
    y.(tab := y.tab.(flight := Stored(false)), serving := None,
       abandoned := y.abandoned + if y.serving.Some? then {y.serving.value} else {})
  }

  function Happen(y: Sys, e: Event): Sys
    requires Possible(y, e)
  {
    var t := y.tab;
    match e
    case Start(cid, kind) => y.(tab := Send(t, cid, kind, false))
    case Serve(cid, o) =>
      var c := t.calls[cid];
      var r := HandleResponse(y.v.w, c, o);
      var s := HandleStep(y.v.w, c, o);
      y.(v := if s.Some? then Moved(y.v, Other(s.value)) else y.v,
         tab := t.(calls := t.calls[cid := Replied(c.kind, c.retry, r)]))
    case Land(cid) =>
      var c := t.calls[cid];
      y.(tab := Store(t, c.response.cookies).(calls := t.calls[cid := Landed(c.kind, c.retry, c.response.status)]))
    case ContinueCall(cid) => y.(tab := Continue(t, cid))
    case ResumeCall(cid) => y.(tab := Resume(t, cid))
    case LoseCall(cid) => y.(tab := t.(calls := t.calls[cid := BrowserTab.Settled(0)]))
    case ReceiveRefresh(tid, minted) =>
      if t.flight.sent.None? then y.(tab := t.(flight := Answered(None, Response(401, Keep))))
      else y.(v := Moved(y.v, SessionInterleaving.Call(tid, t.flight.sent.value, minted)), serving := Some(tid))
    case AdvanceRefresh => Advanced(y)
    case AnswerRefresh =>
      y.(tab := t.(flight := Answered(t.flight.sent, RefreshResponse(y.v.calls[y.serving.value].reply))), serving := None)
    case LoseRefreshRequest => Lost(y)
    case LoseRefreshAnswer => Lost(y)
    case AdvanceAbandoned(tid) =>
      var v := Moved(y.v, Advance(tid));
      y.(v := v, reuse := y.reuse || v.calls[tid] == Finished(SessionReuse))
    case LandRefresh =>
      y.(tab := Store(t, t.flight.response.cookies).(flight := Stored(t.flight.response.status == 200)))
    case Resolve => y.(tab := ResolveFlight(t))
    case ClearFlight => y.(tab := t.(flight := Free))
    case DropJar => y.(tab := t.(jar := None))
    case DropAccess => y.(tab := t.(access := None))
    case Elsewhere(m) => y.(v := Moved(y.v, m))
  }

  function Advanced(y: Sys): Sys
    requires Possible(y, AdvanceRefresh)
  {
    var v := Moved(y.v, Advance(y.serving.value));
    var pc := v.calls[y.serving.value];
    y.(v := v, reuse := y.reuse || pc == Finished(SessionReuse))
  }

  ghost predicate ValidHistory(y: Sys, es: seq<Event>)
    decreases |es|
  {
    es == [] || (Possible(y, es[0]) && ValidHistory(Happen(y, es[0]), es[1..]))
  }

  function HappenAll(y: Sys, es: seq<Event>): Sys
    requires ValidHistory(y, es)
    decreases |es|
  {
    if es == [] then y else HappenAll(Happen(y, es[0]), es[1..])
  }

  // ---- what the handlers answer ----

  /** The refresh handler: new cookies with 200, cleared ones with 401, an internal error keeps them; without a cookie 401. */
  lemma RefreshHandlerAnswers(y: Sys, e: Event)
    requires Possible(y, e) && (e.AnswerRefresh? || (e.ReceiveRefresh? && y.tab.flight.sent.None?))
    ensures var z := Happen(y, e);
            && z.v == y.v && z.tab == y.tab.(flight := z.tab.flight) && z.tab.flight.Answered? && z.tab.flight.sent == y.tab.flight.sent
            && z.tab.flight.response ==
               if e.ReceiveRefresh? then Response(401, Keep)
               else match y.v.calls[y.serving.value].reply
                    case Done(r) => Response(200, SetAuth(r.refresh, r.access))
                    case SessionReuse => Response(401, Clear)
                    case SessionInvalid => Response(401, Clear)
                    case InternalError => Response(500, Keep)
  {
  }

  /** The step of an ordinary handler on the server, told from the call and the tables. */
  ghost predicate ServeSays(w: World, c: Call, o: Oracle, r: Response, w': World)
    requires c.Sent?
  {
    var guard: Option<RawToken> := if c.access.Some? then Some(RawToken.Signed(c.access.value)) else None;
    if c.kind == LoginCall then
      if o.user.None? then r == Response(o.status, Keep) && w' == w
      else
        && StepSays(w, Login(o.user.value, o.minted, o.familyId), w')
        && o.user.value in w.users
        && r == if o.minted.sessionId in w.rows then Response(500, Keep)
                else Response(200, SetAuth(o.minted, Claims(Access, o.user.value, o.minted.sessionId, w.users[o.user.value],
                                                            w.now / 1_000_000_000 - 1, w.now / 1_000_000_000 + 900)))
    else if !LetsIn(w.rows, w.users, guard, w.now) then r == Response(401, Keep) && w' == w
    else if !o.pass then r == Response(o.status, Keep) && w' == w
    else match c.kind
         case LogoutCall =>
           r == Response(200, Clear) && if c.jar.Some? then StepSays(w, Logout(c.jar.value.sessionId), w') else w' == w
         case PasswordCall => r == Response(o.status, Keep) && StepSays(w, PasswordChange(c.access.value.userId), w')
         case _ => r == Response(o.status, Keep) && w' == w
  }

  lemma HandlerSpelledOut(y: Sys, cid: nat, o: Oracle)
    requires Keyed(y.v.w.rows) && Possible(y, Serve(cid, o))
    ensures var c, z := y.tab.calls[cid], Happen(y, Serve(cid, o));
            && cid in z.tab.calls && z.tab.calls[cid].Replied?
            && z.tab == y.tab.(calls := y.tab.calls[cid := Replied(c.kind, c.retry, z.tab.calls[cid].response)])
            && ServeSays(y.v.w, c, o, z.tab.calls[cid].response, z.v.w)
            && z.v.calls == y.v.calls
  {
    var c := y.tab.calls[cid];
    RequireAuthSpelledOut(y.v.w.rows, y.v.w.users, Guard(c), y.v.w.now);
    var s := HandleStep(y.v.w, c, o);
    if s.Some? {
      StepSpelledOut(y.v.w, s.value);
    }
  }

  // ---- the invariant ----

  predicate Rotated(rows: Table, t: RefreshToken) {
    HasChildren(rows, t.sessionId)
  }

  ghost predicate Linked(rows: Table) {
    forall id :: id in rows && rows[id].parentId.Some? ==> rows[id].parentId.value in rows
  }

  ghost predicate TableOk(y: Sys) {
    && Keyed(y.v.w.rows)
    && Linked(y.v.w.rows)
    && Owned(y.v.w)
    && (forall t :: Live(y, t) ==> Possesses(y.v.w.rows, t))
  }

  /** Rotations remember rows of the table, and none but the tab's own is about to insert a child of a session the tab lives on. */
  ghost predicate OthersOk(y: Sys) {
    forall tid :: tid in y.v.calls ==>
      && Remembers(y.v.w.rows, y.v.calls[tid])
      && (y.serving != Some(tid) && AboutToInsert(y.v.calls[tid]) ==> forall t :: Live(y, t) ==> t.sessionId != y.v.calls[tid].sess.id)
  }

  /** Incoming tokens are unspent and nobody else holds them yet. */
  ghost predicate IncomingOk(y: Sys) {
    forall cid, t :: Incoming(y.tab, cid, t) ==>
      && !Rotated(y.v.w.rows, t)
      && y.tab.jar != Some(t)
      && (y.tab.flight.Asking? ==> y.tab.flight.sent != Some(t))
      && Delivery(y) != Some(t)
      && forall cid' :: Incoming(y.tab, cid', t) ==> cid' == cid
  }

  /** Where the rotation serving the tab stands: never on the way to reporting reuse. */
  ghost predicate ServedOk(rows: Table, pc: Pc, sent: RefreshToken) {
    match pc
    case ReadSession(t, _) => t == sent
    case CountChildren(sess) => sess.id == sent.sessionId && sess.Revoked()
    case BurnFamily(_) => false
    case Finished(r) =>
      && r != SessionReuse
      && (r.Done? ==> sent.sessionId in rows && rows[sent.sessionId].Revoked())
    case _ => pc.sess.id == sent.sessionId
  }

  /** The token sent is spent exactly when another one is on its way for it. */
  ghost predicate FlightOk(y: Sys) {
    && (y.serving.Some? ==> AtWork(y) && y.tab.flight.sent.Some? && ServedOk(y.v.w.rows, y.v.calls[y.serving.value], y.tab.flight.sent.value))
    && (y.tab.flight.Asking? && y.tab.flight.sent.Some? && Delivery(y).None? ==> !Rotated(y.v.w.rows, y.tab.flight.sent.value))
    && (Delivery(y).Some? ==> DeliveryOk(y, Delivery(y).value))
    && (y.tab.flight.Answered? && Delivery(y).Some? ==> y.v.w.rows[y.tab.flight.sent.value.sessionId].Revoked())
  }

  ghost predicate DeliveryOk(y: Sys, t: RefreshToken) {
    && !Rotated(y.v.w.rows, t) && y.tab.jar != Some(t)
    && SentToken(y.tab.flight).Some?
    && var sent := SentToken(y.tab.flight).value;
    sent.sessionId in y.v.w.rows && Rotated(y.v.w.rows, sent)
  }

  /** The jar may hold a spent token only while the token that replaces it is on its way. */
  ghost predicate JarOk(y: Sys) {
    y.tab.jar.Some? && Rotated(y.v.w.rows, y.tab.jar.value) ==> Delivery(y).Some? && SentToken(y.tab.flight) == y.tab.jar
  }

  ghost predicate Safe(y: Sys) {
    !y.reuse && TableOk(y) && OthersOk(y) && IncomingOk(y) && FlightOk(y) && JarOk(y)
  }

  /** The session has no child and no rotation is about to insert one. */
  ghost predicate Barren(v: Server, id: string) {
    !HasChildren(v.w.rows, id) && forall k :: k in v.calls && AboutToInsert(v.calls[k]) ==> v.calls[k].sess.id != id
  }

  /** Nothing else of the tab has to do with the token. */
  ghost predicate Dormant(y: Sys, tid: nat, t: RefreshToken) {
    !Live(y, t) && forall k :: Asks(y, k, t) ==> k == tid
  }

  /** An abandoned rotation is not on the way to reporting reuse. */
  ghost predicate QuietOk(y: Sys, tid: nat)
    requires tid in y.v.calls
  {
    match y.v.calls[tid]
    case ReadSession(t, _) =>
      Possesses(y.v.w.rows, t) && Barren(y.v, t.sessionId) && (Shut(y.v.w, t.sessionId) || Dormant(y, tid, t))
    case CountChildren(s) => s.id in y.v.w.rows && y.v.w.rows[s.id].Revoked() && Barren(y.v, s.id)
    case BurnFamily(_) => false
    case Finished(r) => r != SessionReuse
    case _ => true
  }

  ghost predicate AbandonedOk(y: Sys) {
    && (y.serving.Some? ==> y.serving.value !in y.abandoned)
    && (forall tid :: tid in y.abandoned ==> tid in y.v.calls && QuietOk(y, tid))
  }

  ghost predicate Invariant(y: Sys) {
    Safe(y) && AbandonedOk(y)
  }

  /** Tokens that prove possession of one session are one token. */
  lemma OneTokenPerSession(rows: Table, a: RefreshToken, b: RefreshToken)
    requires Possesses(rows, a) && Possesses(rows, b) && a.sessionId == b.sessionId
    ensures a == b
  {
  }

  /** A move gives a session its first child only by the insert of a rotation on it. */
  lemma MoveForks(v: Server, m: Move, p: string)
    requires Keyed(v.w.rows) && CanMove(v, m)
    ensures HasChildren(v.w.rows, p) ==> HasChildren(Moved(v, m).w.rows, p)
    ensures HasChildren(Moved(v, m).w.rows, p) && !HasChildren(v.w.rows, p) ==>
              m.Advance? && v.calls[m.tid].InsertChild? && v.calls[m.tid].sess.id == p
  {
    MoveGrows(v, m);
    MoveAdds(v, m);
    var rows, after := v.w.rows, Moved(v, m).w.rows;
    if HasChildren(rows, p) {
      var id :| id in rows && rows[id].parentId == Some(p);
      assert id in after && after[id].SameIdentity(rows[id]);
    } else if HasChildren(after, p) {
      var id :| id in after && after[id].parentId == Some(p);
      assert id in rows ==> after[id].SameIdentity(rows[id]);
    }
  }

  lemma MoveKeepsLinks(v: Server, m: Move)
    requires Keyed(v.w.rows) && Linked(v.w.rows) && CanMove(v, m)
    requires m.Advance? && AboutToInsert(v.calls[m.tid]) ==> v.calls[m.tid].sess.id in v.w.rows
    ensures Keyed(Moved(v, m).w.rows) && Linked(Moved(v, m).w.rows)
  {
    MoveGrows(v, m);
    MoveAdds(v, m);
    var rows, after := v.w.rows, Moved(v, m).w.rows;
    forall id | id in after && after[id].parentId.Some? ensures after[id].parentId.value in after {
      if id in rows {
        assert after[id].SameIdentity(rows[id]);
      }
    }
  }

  lemma GrowingKeepsPossession(rows: Table, after: Table, t: RefreshToken)
    requires Grows(rows, after) && Possesses(rows, t)
    ensures Possesses(after, t)
  {
    assert after[t.sessionId].SameIdentity(rows[t.sessionId]);
  }

  /** A rotation other than the tab's own that reads a session active does so with a token the tab does not live on or asks about elsewhere. */
  ghost predicate Harmless(y: Sys, m: Move)
    requires CanMove(y.v, m)
  {
    m.Advance? ==>
      && y.serving != Some(m.tid)
      && (y.v.calls[m.tid].ReadSession? && AboutToInsert(Moved(y.v, m).calls[m.tid]) ==>
            var t := y.v.calls[m.tid].presented; !Live(y, t) && forall k :: Asks(y, k, t) ==> k == m.tid)
  }

  /** A move of somebody else spends no token the tab lives on. */
  lemma ForeignMoveSpendsNone(y: Sys, m: Move, t: RefreshToken)
    requires TableOk(y) && OthersOk(y) && CanMove(y.v, m) && Harmless(y, m) && Live(y, t)
    ensures Rotated(Moved(y.v, m).w.rows, t) <==> Rotated(y.v.w.rows, t)
    ensures Possesses(Moved(y.v, m).w.rows, t)
  {
    MoveForks(y.v, m, t.sessionId);
    MoveGrows(y.v, m);
    GrowingKeepsPossession(y.v.w.rows, Moved(y.v, m).w.rows, t);
  }

  /** It leaves what the tab lives on as it was. */
  lemma ForeignMoveKeepsLive(y: Sys, m: Move, t: RefreshToken)
    requires CanMove(y.v, m) && Harmless(y, m) && FlightOk(y)
    ensures Live(y.(v := Moved(y.v, m)), t) <==> Live(y, t)
    ensures Delivery(y.(v := Moved(y.v, m))) == Delivery(y)
  {
    assert y.serving.Some? ==> Moved(y.v, m).calls[y.serving.value] == y.v.calls[y.serving.value];
  }

  lemma ForeignMoveKeepsOthers(y: Sys, m: Move)
    requires TableOk(y) && OthersOk(y) && FlightOk(y) && CanMove(y.v, m) && Harmless(y, m)
    ensures OthersOk(y.(v := Moved(y.v, m)))
  {
    var y' := y.(v := Moved(y.v, m));
    MoveKeepsMemory(y.v, m);
    forall tid, t | tid in y'.v.calls && y.serving != Some(tid) && AboutToInsert(y'.v.calls[tid]) && Live(y', t)
      ensures t.sessionId != y'.v.calls[tid].sess.id
    {
      ForeignMoveKeepsLive(y, m, t);
      assert Possesses(y.v.w.rows, t);
      if m == Advance(tid) && y.v.calls[tid].ReadSession? {
        var p := y.v.calls[tid].presented;
        assert y'.v.calls[tid].sess == y.v.w.rows[p.sessionId];
        assert p != t;
      }
    }
  }

  lemma ForeignMoveKeepsTable(y: Sys, m: Move)
    requires TableOk(y) && OthersOk(y) && FlightOk(y) && CanMove(y.v, m) && Harmless(y, m)
    ensures TableOk(y.(v := Moved(y.v, m)))
  {
    var y' := y.(v := Moved(y.v, m));
    if m.Advance? {
      assert Remembers(y.v.w.rows, y.v.calls[m.tid]);
    }
    MoveKeepsLinks(y.v, m);
    MoveKeepsOwned(y.v, m);
    forall t | Live(y', t) ensures Possesses(y'.v.w.rows, t) {
      ForeignMoveKeepsLive(y, m, t);
      ForeignMoveSpendsNone(y, m, t);
    }
  }

  lemma ForeignMoveKeepsFlight(y: Sys, m: Move)
    requires Safe(y) && CanMove(y.v, m) && Harmless(y, m)
    ensures FlightOk(y.(v := Moved(y.v, m)))
  {
    MoveGrows(y.v, m);
    ForeignMoveKeepsLive(y, m, RefreshToken("", ""));
    if UnderWay(y.tab.flight) && y.tab.flight.sent.Some? {
      ForeignMoveSpendsNone(y, m, y.tab.flight.sent.value);
    }
    if Delivery(y).Some? {
      ForeignMoveSpendsNone(y, m, Delivery(y).value);
    }
    assert y.serving.Some? ==> Moved(y.v, m).calls[y.serving.value] == y.v.calls[y.serving.value];
  }

  lemma ForeignMoveKeepsSafe(y: Sys, m: Move)
    requires Safe(y) && CanMove(y.v, m) && Harmless(y, m)
    ensures Safe(y.(v := Moved(y.v, m)))
  {
    var y' := y.(v := Moved(y.v, m));
    ForeignMoveKeepsTable(y, m);
    ForeignMoveKeepsOthers(y, m);
    ForeignMoveKeepsFlight(y, m);
    ForeignMoveKeepsLive(y, m, RefreshToken("", ""));
    forall cid, t | Incoming(y.tab, cid, t) ensures !Rotated(y'.v.w.rows, t) {
      assert Live(y, t);
      ForeignMoveSpendsNone(y, m, t);
    }
    if y.tab.jar.Some? { ForeignMoveSpendsNone(y, m, y.tab.jar.value); }
  }

  /** A reply joins the calls: it grants nothing, or a token whose session nobody knew before. */
  lemma ReplyKeepsSafe(y: Sys, cid: nat, c: Call)
    requires Safe(y) && c.Replied?
    requires cid in y.tab.calls && y.tab.calls[cid].Sent?
    requires c.response.cookies.SetAuth? ==>
               var t := c.response.cookies.token;
               && !Live(y, t) && Possesses(y.v.w.rows, t) && !Rotated(y.v.w.rows, t)
               && forall tid :: tid in y.v.calls && AboutToInsert(y.v.calls[tid]) ==> t.sessionId != y.v.calls[tid].sess.id
    ensures Safe(y.(tab := y.tab.(calls := y.tab.calls[cid := c])))
  {
    var y' := y.(tab := y.tab.(calls := y.tab.calls[cid := c]));
    assert Delivery(y') == Delivery(y);
    assert forall k, t :: k != cid ==> (Incoming(y'.tab, k, t) <==> Incoming(y.tab, k, t));
    assert forall t :: Live(y', t) ==> Live(y, t) || Incoming(y'.tab, cid, t);
    assert forall k, t :: Incoming(y.tab, k, t) ==> Live(y, t);
  }

  lemma ServeKeepsSafe(y: Sys, cid: nat, o: Oracle)
    requires Safe(y) && Possible(y, Serve(cid, o))
    ensures Safe(Happen(y, Serve(cid, o)))
  {
    var c := y.tab.calls[cid];
    var s := HandleStep(y.v.w, c, o);
    var r := HandleResponse(y.v.w, c, o);
    var y1 := y;
    if s.Some? {
      y1 := y.(v := Moved(y.v, Other(s.value)));
      ForeignMoveKeepsSafe(y, Other(s.value));
    }
    if r.cookies.SetAuth? {
      var t := r.cookies.token;
      assert t.sessionId !in y.v.w.rows;
      assert Live(y, t) ==> Possesses(y.v.w.rows, t);
      ForeignMoveKeepsLive(y, Other(s.value), t);
      MoveForks(y.v, Other(s.value), t.sessionId);
      assert forall tid :: tid in y.v.calls ==> Remembers(y.v.w.rows, y.v.calls[tid]);
    }
    ReplyKeepsSafe(y1, cid, Replied(c.kind, c.retry, r));
  }

  lemma ReceiveKeepsSafe(y: Sys, tid: nat, minted: RefreshToken)
    requires Safe(y) && Possible(y, ReceiveRefresh(tid, minted))
    ensures Safe(Happen(y, ReceiveRefresh(tid, minted)))
  {
    var y' := Happen(y, ReceiveRefresh(tid, minted));
    assert forall c, t :: Incoming(y'.tab, c, t) <==> Incoming(y.tab, c, t);
  }

  /** The statement of the tab's rotation that inserts the child, if it does. */
  ghost predicate Inserts(y: Sys) {
    && Possible(y, AdvanceRefresh)
    && y.v.calls[y.serving.value].InsertChild?
    && Advanced(y).v.calls[y.serving.value].RevokeParent?
  }

  /** It spends the token sent and no other. */
  lemma AdvanceSpends(y: Sys, t: RefreshToken)
    requires Safe(y) && Possible(y, AdvanceRefresh)
    ensures Rotated(Advanced(y).v.w.rows, t) <==>
              Rotated(y.v.w.rows, t) || (Inserts(y) && t.sessionId == y.tab.flight.sent.value.sessionId)
  {
    MoveForks(y.v, Advance(y.serving.value), t.sessionId);
    if Inserts(y) && t.sessionId == y.tab.flight.sent.value.sessionId {
      var child := y.v.calls[y.serving.value].minted.sessionId;
      assert child in Advanced(y).v.w.rows && Advanced(y).v.w.rows[child].parentId == Some(t.sessionId);
    }
  }

  lemma AdvanceDelivers(y: Sys)
    requires Safe(y) && Possible(y, AdvanceRefresh)
    ensures Delivery(Advanced(y)) == if Inserts(y) then Some(y.v.calls[y.serving.value].minted) else Delivery(y)
  {
  }

  /** What the insert adds to the tokens the tab lives on. */
  lemma AdvanceKeepsLive(y: Sys, t: RefreshToken)
    requires Safe(y) && Possible(y, AdvanceRefresh)
    ensures Live(Advanced(y), t) <==> Live(y, t) || (Inserts(y) && t == y.v.calls[y.serving.value].minted)
  {
    AdvanceDelivers(y);
    assert Inserts(y) ==> Delivery(y).None?;
  }

  /** The minted token is nobody's yet. */
  lemma MintedIsNew(y: Sys)
    requires Safe(y) && Inserts(y)
    ensures var t := y.v.calls[y.serving.value].minted;
            && t.sessionId !in y.v.w.rows && !Live(y, t)
            && Possesses(Advanced(y).v.w.rows, t) && !Rotated(Advanced(y).v.w.rows, t)
  {
    var t := y.v.calls[y.serving.value].minted;
    assert t.sessionId !in y.v.w.rows;
    assert Live(y, t) ==> Possesses(y.v.w.rows, t);
    assert Live(y, y.tab.flight.sent.value);
    AdvanceSpends(y, t);
  }

  lemma AdvanceKeepsTable(y: Sys)
    requires Safe(y) && Possible(y, AdvanceRefresh)
    ensures TableOk(Advanced(y)) && Grows(y.v.w.rows, Advanced(y).v.w.rows)
  {
    var m := Advance(y.serving.value);
    assert Remembers(y.v.w.rows, y.v.calls[m.tid]);
    MoveGrows(y.v, m);
    MoveKeepsLinks(y.v, m);
    MoveKeepsOwned(y.v, m);
    if Inserts(y) { MintedIsNew(y); }
    forall t | Live(Advanced(y), t) ensures Possesses(Advanced(y).v.w.rows, t) {
      AdvanceKeepsLive(y, t);
      if Live(y, t) { GrowingKeepsPossession(y.v.w.rows, Advanced(y).v.w.rows, t); }
    }
  }

  lemma AdvanceKeepsHolding(y: Sys, tid: nat, t: RefreshToken)
    requires Safe(y) && Possible(y, AdvanceRefresh)
    requires tid in y.v.calls && y.serving != Some(tid) && AboutToInsert(y.v.calls[tid]) && Live(Advanced(y), t)
    ensures t.sessionId != y.v.calls[tid].sess.id
  {
    AdvanceKeepsLive(y, t);
    assert Remembers(y.v.w.rows, y.v.calls[tid]);
    if !Live(y, t) { MintedIsNew(y); }
  }

  lemma AdvanceKeepsOthers(y: Sys)
    requires Safe(y) && Possible(y, AdvanceRefresh)
    ensures OthersOk(Advanced(y))
  {
    var v' := Advanced(y).v;
    MoveKeepsMemory(y.v, Advance(y.serving.value));
    forall tid, t | tid in v'.calls && y.serving != Some(tid) && AboutToInsert(v'.calls[tid]) && Live(Advanced(y), t)
      ensures t.sessionId != v'.calls[tid].sess.id
    {
      AdvanceKeepsHolding(y, tid, t);
    }
  }

  /** A rotation of a token never rotated before does not report reuse. */
  lemma StatementIsServedOk(w: World, pc: Pc, sent: RefreshToken)
    requires Keyed(w.rows) && Possesses(w.rows, sent) && !pc.Finished? && ServedOk(w.rows, pc, sent)
    requires pc.CountChildren? ==> !Rotated(w.rows, sent)
    ensures var (w', pc') := Statement(w, pc); ServedOk(w'.rows, pc', sent) && pc' != Finished(SessionReuse)
  {
  }

  lemma AdvanceKeepsFlight(y: Sys)
    requires Safe(y) && Possible(y, AdvanceRefresh)
    ensures FlightOk(Advanced(y)) && !Advanced(y).reuse
  {
    var sent := y.tab.flight.sent.value;
    assert Live(y, sent);
    AdvanceKeepsTable(y);
    AdvanceDelivers(y);
    StatementIsServedOk(y.v.w, y.v.calls[y.serving.value], sent);
    AdvanceSpends(y, sent);
    if Inserts(y) {
      MintedIsNew(y);
    } else if Delivery(y).Some? {
      AdvanceSpends(y, Delivery(y).value);
    }
  }

  lemma AdvanceSpendsSent(y: Sys, t: RefreshToken)
    requires Safe(y) && Possible(y, AdvanceRefresh) && Live(y, t)
    ensures Rotated(Advanced(y).v.w.rows, t) <==> Rotated(y.v.w.rows, t) || (Inserts(y) && y.tab.flight.sent == Some(t))
  {
    var sent := y.tab.flight.sent.value;
    AdvanceSpends(y, t);
    assert Live(y, sent);
    if t.sessionId == sent.sessionId { OneTokenPerSession(y.v.w.rows, t, sent); }
  }

  lemma AdvanceKeepsIncoming(y: Sys)
    requires Safe(y) && Possible(y, AdvanceRefresh)
    ensures IncomingOk(Advanced(y))
  {
    AdvanceDelivers(y);
    if Inserts(y) { MintedIsNew(y); }
    forall cid, t | Incoming(y.tab, cid, t) ensures Live(y, t) && !Rotated(Advanced(y).v.w.rows, t) {
      AdvanceSpendsSent(y, t);
    }
  }

  lemma AdvanceKeepsJar(y: Sys)
    requires Safe(y) && Possible(y, AdvanceRefresh)
    ensures JarOk(Advanced(y))
  {
    AdvanceDelivers(y);
    if y.tab.jar.Some? { AdvanceSpendsSent(y, y.tab.jar.value); }
  }

  lemma AdvanceKeepsSafe(y: Sys)
    requires Safe(y) && Possible(y, AdvanceRefresh)
    ensures Safe(Advanced(y))
  {
    AdvanceKeepsTable(y);
    AdvanceKeepsOthers(y);
    AdvanceKeepsFlight(y);
    AdvanceKeepsIncoming(y);
    AdvanceKeepsJar(y);
  }

  lemma AnswerKeepsSafe(y: Sys)
    requires Safe(y) && Possible(y, AnswerRefresh)
    ensures Safe(Happen(y, AnswerRefresh))
  {
    var y' := Happen(y, AnswerRefresh);
    assert Delivery(y') == Delivery(y);
    assert forall c, t :: Incoming(y'.tab, c, t) <==> Incoming(y.tab, c, t);
  }

  lemma LandRefreshKeepsSafe(y: Sys)
    requires Safe(y) && Possible(y, LandRefresh)
    ensures Safe(Happen(y, LandRefresh))
  {
    assert forall c, t :: Incoming(Happen(y, LandRefresh).tab, c, t) ==> Incoming(y.tab, c, t);
  }

  /** Client code on its own: the jar stays or goes, and a refresh under way stays, fails unsent, or starts with what the jar holds. */
  lemma TabKeepsSafe(y: Sys, tab: Tab)
    requires Safe(y)
    requires tab.jar == y.tab.jar || tab.jar == None
    requires forall c, t :: Incoming(tab, c, t) ==> Incoming(y.tab, c, t)
    requires || tab.flight == y.tab.flight
             || (y.serving.None? && !y.tab.flight.Answered? && !UnderWay(tab.flight))
             || (y.tab.flight.Free? && tab.flight == Asking(y.tab.jar))
    ensures Safe(y.(tab := tab))
  {
    assert Delivery(y.(tab := tab)) == Delivery(y);
  }

  /** The jar takes a token that nobody else holds. */
  lemma StoringKeepsSafe(y: Sys, c: Cookies)
    requires Safe(y)
    requires c.SetAuth? ==>
               && Possesses(y.v.w.rows, c.token) && !Rotated(y.v.w.rows, c.token) && Delivery(y) != Some(c.token)
               && (forall cid :: !Incoming(y.tab, cid, c.token))
               && forall tid :: tid in y.v.calls && y.serving != Some(tid) && AboutToInsert(y.v.calls[tid]) ==> c.token.sessionId != y.v.calls[tid].sess.id
    ensures Safe(y.(tab := Store(y.tab, c)))
  {
    assert Delivery(y.(tab := Store(y.tab, c))) == Delivery(y);
    assert forall cid, t :: Incoming(Store(y.tab, c), cid, t) ==> Incoming(y.tab, cid, t);
  }

  lemma LandKeepsSafe(y: Sys, cid: nat)
    requires Safe(y) && Possible(y, Land(cid))
    ensures Safe(Happen(y, Land(cid)))
  {
    var c := y.tab.calls[cid];
    var tab := y.tab.(calls := y.tab.calls[cid := Landed(c.kind, c.retry, c.response.status)]);
    assert forall k, t :: Incoming(tab, k, t) ==> Incoming(y.tab, k, t) && k != cid;
    if c.response.cookies.SetAuth? {
      assert Incoming(y.tab, cid, c.response.cookies.token);
    }
    TabKeepsSafe(y, tab);
    StoringKeepsSafe(y.(tab := tab), c.response.cookies);
  }

  lemma LosingKeepsSafe(y: Sys)
    requires Safe(y) && (y.tab.flight.Answered? || AtWork(y)) && Absorbable(y)
    ensures Safe(Lost(y))
  {
    assert forall c, t :: Incoming(Lost(y).tab, c, t) <==> Incoming(y.tab, c, t);
    forall t | Live(Lost(y), t) ensures Live(y, t) && (AtWork(y) && t != y.tab.flight.sent.value ==> t.sessionId != y.tab.flight.sent.value.sessionId) {
      assert y.tab.jar == Some(t) || exists c :: Incoming(y.tab, c, t);
      assert Live(y, t);
      if AtWork(y) { assert Live(y, y.tab.flight.sent.value); }
    }
  }

  // ---- rotations whose answer the tab no longer waits for ----

  lemma MoveKeepsBarren(v: Server, m: Move, id: string)
    requires Keyed(v.w.rows) && CanMove(v, m) && Barren(v, id)
    requires m.Advance? && v.calls[m.tid].ReadSession? && AboutToInsert(Moved(v, m).calls[m.tid]) ==>
               v.calls[m.tid].presented.sessionId != id
    ensures Barren(Moved(v, m), id)
  {
    MoveForks(v, m, id);
  }

  lemma MoveKeepsAsking(y: Sys, y': Sys, m: Move, tid: nat, t: RefreshToken)
    requires Keyed(y.v.w.rows) && CanMove(y.v, m) && m != Advance(tid)
    requires y'.v == Moved(y.v, m) && y'.abandoned == y.abandoned && y.abandoned <= y.v.calls.Keys
    requires Asks(y, tid, t) && Possesses(y.v.w.rows, t) && Barren(y.v, t.sessionId)
    requires Shut(y.v.w, t.sessionId) || Dormant(y, tid, t)
    requires m.Advance? && y.v.calls[m.tid].ReadSession? && AboutToInsert(y'.v.calls[m.tid]) ==>
               forall k :: Asks(y, k, y.v.calls[m.tid].presented) ==> k == m.tid
    requires Live(y', t) ==> Live(y, t)
    ensures Possesses(y'.v.w.rows, t) && Barren(y'.v, t.sessionId)
    ensures Shut(y'.v.w, t.sessionId) || Dormant(y', tid, t)
  {
    MoveGrows(y.v, m);
    GrowingKeepsPossession(y.v.w.rows, y'.v.w.rows, t);
    MoveKeepsBarren(y.v, m, t.sessionId);
    if Shut(y.v.w, t.sessionId) {
      MoveKeepsShut(y.v, m, t.sessionId);
    } else {
      assert forall k :: Asks(y', k, t) ==> Asks(y, k, t);
    }
  }

  /** A move leaves another abandoned rotation quiet, unless it reads the session that one asks about as active. */
  lemma MoveKeepsQuiet(y: Sys, y': Sys, m: Move, tid: nat)
    requires TableOk(y) && AbandonedOk(y) && CanMove(y.v, m) && tid in y.abandoned && m != Advance(tid)
    requires y'.v == Moved(y.v, m) && y'.abandoned == y.abandoned
    requires m.Advance? && y.v.calls[m.tid].ReadSession? && AboutToInsert(y'.v.calls[m.tid]) ==>
               forall k :: Asks(y, k, y.v.calls[m.tid].presented) ==> k == m.tid
    requires forall t :: Live(y', t) ==> Live(y, t) || t.sessionId !in y.v.w.rows
    ensures QuietOk(y', tid)
  {
    assert QuietOk(y, tid);
    match y.v.calls[tid]
    case ReadSession(t, _) => MoveKeepsAsking(y, y', m, tid, t);
    case CountChildren(s) =>
      MoveGrows(y.v, m);
      MoveKeepsBarren(y.v, m, s.id);
    case _ =>
  }

  lemma ForeignMoveKeepsInvariant(y: Sys, m: Move)
    requires Invariant(y) && CanMove(y.v, m) && Foreign(y, m)
    ensures Invariant(y.(v := Moved(y.v, m)))
  {
    var y' := y.(v := Moved(y.v, m));
    ForeignMoveKeepsSafe(y, m);
    forall t | Live(y', t) ensures Live(y, t) { ForeignMoveKeepsLive(y, m, t); }
    forall tid | tid in y.abandoned ensures tid in y'.v.calls && QuietOk(y', tid) {
      MoveKeepsQuiet(y, y', m, tid);
    }
  }

  /** An abandoned rotation takes its own next statement: it does not report reuse, nor cut into the tab's tokens. */
  lemma AbandonedStatementIsQuiet(y: Sys, tid: nat)
    requires Invariant(y) && Possible(y, AdvanceAbandoned(tid))
    ensures QuietOk(Happen(y, AdvanceAbandoned(tid)), tid) && Happen(y, AdvanceAbandoned(tid)).v.calls[tid] != Finished(SessionReuse)
    ensures Harmless(y, Advance(tid))
  {
    MoveGrows(y.v, Advance(tid));
    assert QuietOk(y, tid);
  }

  lemma AbandonedKeepsInvariant(y: Sys, tid: nat)
    requires Invariant(y) && Possible(y, AdvanceAbandoned(tid))
    ensures Invariant(Happen(y, AdvanceAbandoned(tid)))
  {
    var m, y' := Advance(tid), Happen(y, AdvanceAbandoned(tid));
    AbandonedStatementIsQuiet(y, tid);
    ForeignMoveKeepsSafe(y, m);
    assert y' == y.(v := Moved(y.v, m));
    forall t | Live(y', t) ensures Live(y, t) { ForeignMoveKeepsLive(y, m, t); }
    forall k | k in y.abandoned ensures k in y'.v.calls && QuietOk(y', k) {
      if k != tid { MoveKeepsQuiet(y, y', m, k); }
    }
  }

  /** The tab's rotation reads its session as active only if no abandoned one asks about it. */
  lemma ServedReadsUnasked(y: Sys, k: nat)
    requires Invariant(y) && Possible(y, AdvanceRefresh)
    requires y.v.calls[y.serving.value].ReadSession? && AboutToInsert(Advanced(y).v.calls[y.serving.value])
    ensures !Asks(y, k, y.v.calls[y.serving.value].presented)
  {
    var t := y.v.calls[y.serving.value].presented;
    assert Live(y, t);
    assert k in y.abandoned && k in y.v.calls ==> QuietOk(y, k);
  }

  lemma AdvanceKeepsInvariant(y: Sys)
    requires Invariant(y) && Possible(y, AdvanceRefresh)
    ensures Invariant(Advanced(y))
  {
    var m, y' := Advance(y.serving.value), Advanced(y);
    AdvanceKeepsSafe(y);
    if y.v.calls[m.tid].ReadSession? && AboutToInsert(y'.v.calls[m.tid]) {
      forall k ensures !Asks(y, k, y.v.calls[m.tid].presented) { ServedReadsUnasked(y, k); }
    }
    forall t | Live(y', t) ensures Live(y, t) || t.sessionId !in y.v.w.rows {
      AdvanceKeepsLive(y, t);
      if !Live(y, t) { MintedIsNew(y); }
    }
    forall tid | tid in y.abandoned ensures tid in y'.v.calls && QuietOk(y', tid) {
      MoveKeepsQuiet(y, y', m, tid);
    }
  }

  /** As long as the server does not move, an abandoned rotation minds only tokens that become live although one asks about them. */
  lemma StillKeepsAbandoned(y: Sys, y': Sys)
    requires AbandonedOk(y) && y'.abandoned == y.abandoned && y'.v == y.v && (y'.serving == y.serving || y'.serving.None?)
    requires forall k, t :: Live(y', t) && Asks(y, k, t) ==> Live(y, t)
    ensures AbandonedOk(y')
  {
    forall tid | tid in y.abandoned ensures QuietOk(y', tid) {
      assert QuietOk(y, tid);
      if y.v.calls[tid].ReadSession? {
        var t := y.v.calls[tid].presented;
        assert Asks(y, tid, t);
        assert forall k :: Asks(y', k, t) ==> Asks(y, k, t);
      }
    }
  }

  lemma ServeKeepsInvariant(y: Sys, cid: nat, o: Oracle)
    requires Invariant(y) && Possible(y, Serve(cid, o))
    ensures Invariant(Happen(y, Serve(cid, o)))
  {
    var s := HandleStep(y.v.w, y.tab.calls[cid], o);
    var y1, y' := y, Happen(y, Serve(cid, o));
    ServeKeepsSafe(y, cid, o);
    if s.Some? {
      y1 := y.(v := Moved(y.v, Other(s.value)));
      ForeignMoveKeepsInvariant(y, Other(s.value));
    }
    assert Delivery(y') == Delivery(y1);
    forall k, t | Live(y', t) && Asks(y1, k, t) ensures Live(y1, t) {
      assert QuietOk(y, k) && t.sessionId in y.v.w.rows;
      assert forall c :: Incoming(y'.tab, c, t) ==> c != cid && Incoming(y1.tab, c, t);
    }
    StillKeepsAbandoned(y1, y');
  }

  lemma ReceiveKeepsInvariant(y: Sys, tid: nat, minted: RefreshToken)
    requires Invariant(y) && Possible(y, ReceiveRefresh(tid, minted))
    ensures Invariant(Happen(y, ReceiveRefresh(tid, minted)))
  {
    var y' := Happen(y, ReceiveRefresh(tid, minted));
    ReceiveKeepsSafe(y, tid, minted);
    assert forall c, t :: Incoming(y'.tab, c, t) <==> Incoming(y.tab, c, t);
    assert forall t :: Live(y', t) ==> Live(y, t);
    if y.tab.flight.sent.None? {
      StillKeepsAbandoned(y, y');
    } else {
      forall k | k in y.abandoned ensures k in y'.v.calls && QuietOk(y', k) {
        MoveKeepsQuiet(y, y', SessionInterleaving.Call(tid, y.tab.flight.sent.value, minted), k);
      }
    }
  }

  /** The rotation the tab loses sight of is quiet from then on. */
  lemma LosingKeepsInvariant(y: Sys)
    requires Invariant(y) && (y.tab.flight.Answered? || AtWork(y)) && Absorbable(y)
    ensures Invariant(Lost(y))
  {
    var y' := Lost(y);
    LosingKeepsSafe(y);
    assert forall c, t :: Incoming(y'.tab, c, t) <==> Incoming(y.tab, c, t);
    assert forall t :: Live(y', t) ==> Live(y, t);
    forall tid | tid in y'.abandoned ensures tid in y'.v.calls && QuietOk(y', tid) {
      if tid in y.abandoned {
        LosingKeepsQuiet(y, tid);
      } else {
        LostIsQuiet(y);
      }
    }
  }

  lemma LosingKeepsQuiet(y: Sys, tid: nat)
    requires Invariant(y) && (y.tab.flight.Answered? || AtWork(y)) && tid in y.abandoned
    requires forall t :: Live(Lost(y), t) ==> Live(y, t)
    ensures QuietOk(Lost(y), tid)
  {
    assert QuietOk(y, tid);
    if y.v.calls[tid].ReadSession? && Dormant(y, tid, y.v.calls[tid].presented) {
      var t := y.v.calls[tid].presented;
      assert AtWork(y) ==> Live(y, y.tab.flight.sent.value);
      assert forall k :: Asks(Lost(y), k, t) ==> Asks(y, k, t);
    }
  }

  lemma LostIsQuiet(y: Sys)
    requires Invariant(y) && AtWork(y) && Absorbable(y)
    requires forall t :: Live(Lost(y), t) ==> Live(y, t)
    ensures QuietOk(Lost(y), y.serving.value)
  {
    var sent, tid := y.tab.flight.sent.value, y.serving.value;
    assert Live(y, sent) && Remembers(y.v.w.rows, y.v.calls[tid]);
    assert forall c, t :: Incoming(Lost(y).tab, c, t) <==> Incoming(y.tab, c, t);
    assert forall c :: !Incoming(y.tab, c, sent);
    forall k | Asks(Lost(y), k, sent) && k != tid ensures Shut(y.v.w, sent.sessionId) {
      assert Asks(y, k, sent) && QuietOk(y, k);
    }
  }

  lemma HappenKeepsInvariant(y: Sys, e: Event)
    requires Invariant(y) && Possible(y, e)
    ensures Invariant(Happen(y, e))
  {
    match e
    case Serve(cid, o) => ServeKeepsInvariant(y, cid, o);
    case ReceiveRefresh(tid, minted) => ReceiveKeepsInvariant(y, tid, minted);
    case AdvanceRefresh => AdvanceKeepsInvariant(y);
    case AdvanceAbandoned(tid) => AbandonedKeepsInvariant(y, tid);
    case LoseRefreshAnswer => LosingKeepsInvariant(y);
    case Elsewhere(m) => ForeignMoveKeepsInvariant(y, m);
    case _ => TabKeepsInvariant(y, e);
  }

  lemma TabLivesOnLess(y: Sys, e: Event, t: RefreshToken)
    requires Invariant(y) && Possible(y, e)
    requires !e.Serve? && !e.ReceiveRefresh? && !e.AdvanceRefresh? && !e.AdvanceAbandoned? && !e.LoseRefreshAnswer? && !e.Elsewhere?
    requires Live(Happen(y, e), t)
    ensures Live(y, t)
  {
    var y' := Happen(y, e);
    assert forall c :: Incoming(y'.tab, c, t) ==> Incoming(y.tab, c, t);
    if e.Land? && y'.tab.jar == Some(t) && y.tab.jar != Some(t) {
      assert Incoming(y.tab, e.cid, t);
    }
  }

  /** Events in which the server does not move and the tab takes nothing that was not on its way. */
  lemma TabKeepsInvariant(y: Sys, e: Event)
    requires Invariant(y) && Possible(y, e)
    requires !e.Serve? && !e.ReceiveRefresh? && !e.AdvanceRefresh? && !e.AdvanceAbandoned? && !e.LoseRefreshAnswer? && !e.Elsewhere?
    ensures Invariant(Happen(y, e))
  {
    var y' := Happen(y, e);
    match e {
      case Land(cid) => LandKeepsSafe(y, cid);
      case AnswerRefresh => AnswerKeepsSafe(y);
      case LandRefresh => LandRefreshKeepsSafe(y);
      case _ => TabKeepsSafe(y, y'.tab);
    }
    forall t | Live(y', t) ensures Live(y, t) { TabLivesOnLess(y, e, t); }
    StillKeepsAbandoned(y, y');
  }

  lemma {:induction false} HistoryKeepsInvariant(y: Sys, es: seq<Event>)
    requires Invariant(y) && ValidHistory(y, es)
    ensures Invariant(HappenAll(y, es))
    decreases |es|
  {
    if es != [] {
      HappenKeepsInvariant(y, es[0]);
      HistoryKeepsInvariant(Happen(y, es[0]), es[1..]);
    }
  }

  /**
   A tab just opened: nothing under way, and its cookie, if any, is one the
   server minted for it and never rotated. Rotations of others may be.
   */
  ghost predicate Opened(y: Sys) {
    && TableOk(y) && OthersOk(y) && !y.reuse
    && y.tab.flight == Free && y.tab.calls == map[] && y.serving == None && y.abandoned == {}
    && (y.tab.jar.Some? ==> !Rotated(y.v.w.rows, y.tab.jar.value))
  }

  /** A tab opened without cookies on any reachable server state qualifies. */
  lemma NewTabIsOpened(v: Server, ms: seq<Move>)
    requires Initial(v.w) && v.calls == map[] && ValidMoves(v, ms)
    ensures Opened(Sys(MovedAll(v, ms), Tab(None, None, Free, map[]), None, {}, false))
  {
    var rank := MovesKeepSound(v, ms, map[]);
    var rows := MovedAll(v, ms).w.rows;
    SoundIsKeyed(MovedAll(v, ms), rank);
    forall id | id in rows && rows[id].parentId.Some? ensures rows[id].parentId.value in rows {
      assert RankedAt(rows, rank, id);
    }
  }

  /**
   In every history of the tab, under any interleaving of its calls, their 401s
   and retries, logins, logouts, password changes, lost requests, absorbable
   losses of answers and connections that break under a running handler, with
   whatever other clients do, down to the statements of every rotation, no
   rotation of the tab ever ends as a replay; and whenever no refresh is under
   way its jar holds no rotated token.
   */
  lemma TabNeverTripsReuse(y: Sys, es: seq<Event>)
    requires Opened(y) && ValidHistory(y, es)
    ensures var z := HappenAll(y, es);
            && !z.reuse
            && (!UnderWay(z.tab.flight) && z.tab.jar.Some? ==> !Rotated(z.v.w.rows, z.tab.jar.value))
  {
    HistoryKeepsInvariant(y, es);
  }

  lemma ExtendFront(y: Sys, e: Event, rest: seq<Event>) returns (es: seq<Event>)
    requires Possible(y, e) && ValidHistory(Happen(y, e), rest)
    ensures es == [e] + rest && ValidHistory(y, es) && HappenAll(y, es) == HappenAll(Happen(y, e), rest)
  {
    es := [e] + rest;
    assert es[1..] == rest;
  }

  lemma {:induction false} HistoriesCompose(y: Sys, a: seq<Event>, b: seq<Event>)
    requires ValidHistory(y, a) && ValidHistory(HappenAll(y, a), b)
    ensures ValidHistory(y, a + b) && HappenAll(y, a + b) == HappenAll(HappenAll(y, a), b)
    decreases |a|
  {
    if a == [] {
      assert a + b == b;
    } else {
      assert (a + b)[1..] == a[1..] + b;
      HistoriesCompose(Happen(y, a[0]), a[1..], b);
    }
  }

  // ---- the refresh with its handler left alone ----

  lemma {:induction false} AdvancesAlone(y: Sys, fuel: nat) returns (es: seq<Event>)
    requires AtWork(y) && RunAlone(y.v.w, y.v.calls[y.serving.value], fuel).1.Finished?
    ensures ValidHistory(y, es)
    ensures var (w, pc) := RunAlone(y.v.w, y.v.calls[y.serving.value], fuel);
            var z := HappenAll(y, es);
            z.tab == y.tab && z.serving == y.serving && z.v == Server(w, y.v.calls[y.serving.value := pc])
    decreases fuel
  {
    if y.v.calls[y.serving.value].Finished? {
      es := [];
      assert y.v.calls == y.v.calls[y.serving.value := y.v.calls[y.serving.value]];
    } else {
      var rest := AdvancesAlone(Happen(y, AdvanceRefresh), fuel - 1);
      es := ExtendFront(y, AdvanceRefresh, rest);
      assert y.v.calls[y.serving.value := Advanced(y).v.calls[y.serving.value]] == Advanced(y).v.calls;
    }
  }

  /**
   Histories in which the refresh handler runs as one step are among those of
   the theorem: left alone it answers what the one-step rotation replies and
   leaves the table of the one-step rotation.
   */
  lemma AtomicRefreshIsAHistory(y: Sys, tid: nat, minted: RefreshToken) returns (es: seq<Event>)
    requires Keyed(y.v.w.rows)
    requires y.tab.flight.Asking? && y.tab.flight.sent.Some? && y.serving.None? && tid !in y.v.calls
    ensures ValidHistory(y, es)
    ensures var s, z := Refresh(y.tab.flight.sent.value, minted), HappenAll(y, es);
            && z.v.w == Next(y.v.w, s)
            && z.tab == y.tab.(flight := Answered(y.tab.flight.sent, RefreshResponse(RefreshReply(y.v.w, s).0)))
            && z.serving == None
  {
    UndisturbedRotationIsAtomic(y.v.w, y.tab.flight.sent.value, minted);
    var y1 := Happen(y, ReceiveRefresh(tid, minted));
    var run := AdvancesAlone(y1, 4);
    var y2 := HappenAll(y1, run);
    var last := ExtendFront(y2, AnswerRefresh, []);
    HistoriesCompose(y1, run, last);
    es := ExtendFront(y, ReceiveRefresh(tid, minted), run + last);
  }

  // ---- the answers that must not be lost ----

  /** Some page call is answered 401 and starts a refresh with what the jar holds. */
  lemma PageCallAsks(y: Sys) returns (es: seq<Event>)
    requires y.tab.flight.Free? && y.serving.None?
    ensures ValidHistory(y, es)
    ensures var z := HappenAll(y, es);
            z.tab.flight == Asking(y.tab.jar) && z.serving.None? && z.v == y.v && z.reuse == y.reuse
  {
    var cid := Above(y.tab.calls.Keys);
    var o := Oracle(None, RefreshToken("", ""), "", false, 401);
    var y1 := Happen(y, Start(cid, PageCall));
    var y2 := Happen(y1, Serve(cid, o));
    var y3 := Happen(y2, Land(cid));
    es := ExtendFront(y3, ContinueCall(cid), []);
    es := ExtendFront(y2, Land(cid), es);
    es := ExtendFront(y1, Serve(cid, o), es);
    es := ExtendFront(y, Start(cid, PageCall), es);
  }

  /** A tab whose refresh has failed asks again sooner or later. */
  lemma AsksAgain(y: Sys) returns (es: seq<Event>)
    requires y.tab.flight.Stored? && y.serving.None?
    ensures ValidHistory(y, es)
    ensures var z := HappenAll(y, es);
            z.tab.flight == Asking(y.tab.jar) && z.serving.None? && z.v == y.v && z.reuse == y.reuse
  {
    var y1 := Happen(y, Resolve);
    es := PageCallAsks(Happen(y1, ClearFlight));
    es := ExtendFront(y1, ClearFlight, es);
    es := ExtendFront(y, Resolve, es);
  }

  /** Presenting a spent token ends in reuse. */
  lemma SpentTokenTripsReuse(y: Sys, t: RefreshToken) returns (es: seq<Event>)
    requires Keyed(y.v.w.rows) && Possesses(y.v.w.rows, t)
    requires y.v.w.rows[t.sessionId].Revoked() && Rotated(y.v.w.rows, t)
    requires y.tab.flight == Asking(Some(t)) && y.serving.None?
    ensures ValidHistory(y, es) && HappenAll(y, es).reuse
  {
    var tid := Above(y.v.calls.Keys);
    var y1 := Happen(y, ReceiveRefresh(tid, t));
    var y2 := Happen(y1, AdvanceRefresh);
    var y3 := Happen(y2, AdvanceRefresh);
    es := ExtendFront(y3, AdvanceRefresh, []);
    es := ExtendFront(y2, AdvanceRefresh, es);
    es := ExtendFront(y1, AdvanceRefresh, es);
    es := ExtendFront(y, ReceiveRefresh(tid, t), es);
  }

  function StatementsLeft(pc: Pc): nat {
    match pc
    case ReadSession(_, _) => 4
    case ReadUser(_, _) => 3
    case InsertChild(_, _, _) => 2
    case RevokeParent(_, _, _) => 1
    case _ => 0
  }

  predicate BeforeInsert(pc: Pc) {
    pc.ReadSession? || AboutToInsert(pc)
  }

  /** The rotation has spent its session, or is going to when left alone. */
  predicate WillSpend(w: World, pc: Pc) {
    match pc
    case ReadSession(t, m) => Possesses(w.rows, t) && !Shut(w, t.sessionId) && m.sessionId !in w.rows
    case ReadUser(_, m) => m.sessionId !in w.rows
    case InsertChild(_, m, _) => m.sessionId !in w.rows
    case RevokeParent(_, _, _) => true
    case Finished(r) => r.Done?
    case _ => false
  }

  /** A rotation the tab no longer waits for goes on and spends the token. */
  lemma {:induction false} AbandonedRotationSpends(y: Sys, tid: nat, sent: RefreshToken) returns (es: seq<Event>)
    requires y.serving.None? && tid in y.v.calls && tid in y.abandoned
    requires Keyed(y.v.w.rows) && Owned(y.v.w) && Possesses(y.v.w.rows, sent)
    requires forall k :: k in y.v.calls ==> Remembers(y.v.w.rows, y.v.calls[k])
    requires ServedOk(y.v.w.rows, y.v.calls[tid], sent) && WillSpend(y.v.w, y.v.calls[tid])
    requires BeforeInsert(y.v.calls[tid]) || Rotated(y.v.w.rows, sent)
    ensures ValidHistory(y, es)
    ensures var z := HappenAll(y, es);
            && z.tab == y.tab && z.serving.None?
            && Keyed(z.v.w.rows) && Possesses(z.v.w.rows, sent)
            && z.v.w.rows[sent.sessionId].Revoked() && Rotated(z.v.w.rows, sent)
    decreases StatementsLeft(y.v.calls[tid])
  {
    var m, pc := Advance(tid), y.v.calls[tid];
    if pc.Finished? {
      es := [];
    } else {
      MoveGrows(y.v, m);
      MoveKeepsOwned(y.v, m);
      MoveKeepsMemory(y.v, m);
      MoveForks(y.v, m, sent.sessionId);
      StatementIsServedOk(y.v.w, pc, sent);
      GrowingKeepsPossession(y.v.w.rows, Moved(y.v, m).w.rows, sent);
      assert Remembers(y.v.w.rows, pc);
      if pc.InsertChild? {
        assert Moved(y.v, m).w.rows[pc.minted.sessionId].parentId == Some(sent.sessionId);
      }
      var rest := AbandonedRotationSpends(Happen(y, AdvanceAbandoned(tid)), tid, sent);
      es := ExtendFront(y, AdvanceAbandoned(tid), rest);
    }
  }

  /** From a tab whose jar holds a spent token, some continuation ends in reuse. */
  lemma SpentJarTripsReuse(y: Sys, t: RefreshToken) returns (es: seq<Event>)
    requires y.tab.flight.Stored? && y.serving.None? && y.tab.jar == Some(t)
    requires Keyed(y.v.w.rows) && Possesses(y.v.w.rows, t)
    requires y.v.w.rows[t.sessionId].Revoked() && Rotated(y.v.w.rows, t)
    ensures ValidHistory(y, es) && HappenAll(y, es).reuse
  {
    var a := AsksAgain(y);
    var b := SpentTokenTripsReuse(HappenAll(y, a), t);
    HistoriesCompose(y, a, b);
    es := a + b;
  }

  lemma UnabsorbedLossTripsReuse(y: Sys) returns (es: seq<Event>)
    requires Invariant(y) && (y.tab.flight.Answered? || AtWork(y)) && !Absorbable(y)
    requires AtWork(y) && BeforeInsert(y.v.calls[y.serving.value]) ==> y.v.calls[y.serving.value].minted.sessionId !in y.v.w.rows
    ensures ValidHistory(Lost(y), es) && HappenAll(Lost(y), es).reuse
  {
    var sent := y.tab.flight.sent.value;
    assert Live(y, sent);
    var a: seq<Event> := [];
    if AtWork(y) {
      a := AbandonedRotationSpends(Lost(y), y.serving.value, sent);
    }
    var b := SpentJarTripsReuse(HappenAll(Lost(y), a), sent);
    HistoriesCompose(Lost(y), a, b);
    es := a + b;
  }

  /** Every continuation is free of reuse. */
  ghost predicate NeverReuses(y: Sys) {
    forall es :: ValidHistory(y, es) ==> !HappenAll(y, es).reuse
  }

  /**
   The one loss the protocol cannot absorb. The answer to a refresh, given or
   still being worked on, may be lost without consequence if and only if the
   jar no longer holds the token sent, or that token has not been replaced and
   is not going to be. Otherwise some continuation ends in reuse.
   */
  lemma AnswerMayBeLostIff(y: Sys, es: seq<Event>)
    requires Opened(y) && ValidHistory(y, es)
    requires HappenAll(y, es).tab.flight.Answered? || AtWork(HappenAll(y, es))
    // an id still to be inserted is fresh
    requires var z := HappenAll(y, es);
             AtWork(z) && BeforeInsert(z.v.calls[z.serving.value]) ==> z.v.calls[z.serving.value].minted.sessionId !in z.v.w.rows
    ensures var z := HappenAll(y, es); NeverReuses(Lost(z)) <==> Absorbable(z)
  {
    HistoryKeepsInvariant(y, es);
    var z := HappenAll(y, es);
    if Absorbable(z) {
      LosingKeepsInvariant(z);
      forall more | ValidHistory(Lost(z), more) ensures !HappenAll(Lost(z), more).reuse {
        HistoryKeepsInvariant(Lost(z), more);
      }
    } else {
      var more := UnabsorbedLossTripsReuse(z);
      assert ValidHistory(Lost(z), more);
    }
  }

  /** A token left in the jar by the loss of an answer that granted another is a replay in every later server state, whatever is done about it. */
  lemma UnabsorbedLossIsForGood(y: Sys, es: seq<Event>, ms: seq<Move>, minted: RefreshToken)
    requires Opened(y) && ValidHistory(y, es) && HappenAll(y, es).tab.flight.Answered?
    requires !Absorbable(HappenAll(y, es)) && ValidMoves(HappenAll(y, es).v, ms)
    ensures var z := HappenAll(y, es);
            z.tab.jar.Some? && RefreshReply(MovedAll(z.v, ms).w, Refresh(z.tab.jar.value, minted)).0 == SessionReuse
  {
    HistoryKeepsInvariant(y, es);
    var z := HappenAll(y, es);
    var t, rows, later := z.tab.jar.value, z.v.w.rows, MovedAll(z.v, ms).w.rows;
    assert Live(z, t);
    MovesGrow(z.v, ms);
    var child :| child in rows && rows[child].parentId == Some(t.sessionId);
    assert child in later && later[child].SameIdentity(rows[child]);
    assert later[t.sessionId] == rows[t.sessionId];
  }

  // ---- what a call that joined a refresh comes to ----

  /** Whether the refresh under way, or the one just over, was answered and its answer delivered with status 200. */
  ghost function Delivered(y: Sys, es: seq<Event>): Option<bool>
    requires ValidHistory(y, es)
    decreases |es|
  {
    match y.tab.flight
    case Free => None
    case Stored(ok) => Some(ok)
    case Resolved(ok) => Some(ok)
    case _ =>
      if es == [] then None
      else if es[0].LandRefresh? then Some(y.tab.flight.response.status == 200)
      else if es[0].LoseRefreshAnswer? || es[0].LoseRefreshRequest? then Some(false)
      else Delivered(Happen(y, es[0]), es[1..])
  }

  predicate SecondAttempt(t: Tab, cid: nat) {
    cid in t.calls && t.calls[cid].Sent? && t.calls[cid].retry
  }

  /** At some point of the history the call is sent for the second time. */
  ghost predicate SentAgain(y: Sys, es: seq<Event>, cid: nat)
    requires ValidHistory(y, es)
    decreases |es|
  {
    SecondAttempt(y.tab, cid) || (es != [] && SentAgain(Happen(y, es[0]), es[1..], cid))
  }

  /** The call has been told how the refresh ended, or waits for one that has. */
  predicate Told(t: Tab, cid: nat, ok: bool) {
    && cid in t.calls
    && (t.calls[cid].Resumed? ==> t.calls[cid].refreshed == ok)
    && (t.calls[cid].Waiting? ==> t.flight == Stored(ok))
    && (t.calls[cid].Resumed? || t.calls[cid].Waiting?)
  }

  lemma {:induction false} SettledForGood(y: Sys, es: seq<Event>, cid: nat)
    requires ValidHistory(y, es) && cid in y.tab.calls && y.tab.calls[cid].Settled?
    ensures cid in HappenAll(y, es).tab.calls && HappenAll(y, es).tab.calls[cid] == y.tab.calls[cid]
    ensures !SentAgain(y, es, cid)
    decreases |es|
  {
    if es != [] {
      StaysSettled(y, es[0], cid);
      SettledForGood(Happen(y, es[0]), es[1..], cid);
    }
  }

  lemma StaysSettled(y: Sys, e: Event, cid: nat)
    requires Possible(y, e) && cid in y.tab.calls && y.tab.calls[cid].Settled?
    ensures cid in Happen(y, e).tab.calls && Happen(y, e).tab.calls[cid] == y.tab.calls[cid]
  {
  }

  /** A call that has been told stays so, or acts on it: sent again if the refresh went well, settled with 401 otherwise. */
  lemma ToldCallActs(y: Sys, e: Event, cid: nat, ok: bool)
    requires Possible(y, e) && Told(y.tab, cid, ok)
    ensures var t := Happen(y, e).tab;
            || Told(t, cid, ok)
            || (cid in t.calls && if ok then SecondAttempt(t, cid) else t.calls[cid] == BrowserTab.Settled(401))
  {
  }

  lemma {:induction false} ToldCallComesTo(y: Sys, es: seq<Event>, cid: nat, ok: bool)
    requires ValidHistory(y, es) && Told(y.tab, cid, ok)
    ensures cid in HappenAll(y, es).tab.calls
    ensures SentAgain(y, es, cid) ==> ok
    ensures var c := HappenAll(y, es).tab.calls[cid];
            && (!SentAgain(y, es, cid) ==> c.Waiting? || c.Resumed? || c == BrowserTab.Settled(401))
            && (c.Settled? ==> (SentAgain(y, es, cid) <==> ok))
    decreases |es|
  {
    if es != [] {
      var y1 := Happen(y, es[0]);
      ToldCallActs(y, es[0], cid, ok);
      if Told(y1.tab, cid, ok) {
        ToldCallComesTo(y1, es[1..], cid, ok);
      } else if ok {
        assert SentAgain(y1, es[1..], cid);
        CallsStay(y1, es[1..], cid);
      } else {
        SettledForGood(y1, es[1..], cid);
      }
    }
  }

  lemma {:induction false} CallsStay(y: Sys, es: seq<Event>, cid: nat)
    requires ValidHistory(y, es) && cid in y.tab.calls
    ensures cid in HappenAll(y, es).tab.calls
    decreases |es|
  {
    if es != [] {
      CallsStay(Happen(y, es[0]), es[1..], cid);
    }
  }

  /** While the refresh is under way a call waiting for it goes on waiting. */
  lemma WaitsOn(y: Sys, e: Event, cid: nat)
    requires Possible(y, e) && UnderWay(y.tab.flight) && cid in y.tab.calls && y.tab.calls[cid].Waiting?
    ensures var t := Happen(y, e).tab;
            && cid in t.calls && t.calls[cid] == y.tab.calls[cid]
            && if e.LandRefresh? then t.flight == Stored(y.tab.flight.response.status == 200)
               else if e.LoseRefreshAnswer? || e.LoseRefreshRequest? then t.flight == Stored(false)
               else UnderWay(t.flight)
  {
  }

  lemma {:induction false} WaitingCallComesTo(y: Sys, es: seq<Event>, cid: nat)
    requires ValidHistory(y, es) && UnderWay(y.tab.flight) && cid in y.tab.calls && y.tab.calls[cid].Waiting?
    ensures cid in HappenAll(y, es).tab.calls
    ensures var c, d := HappenAll(y, es).tab.calls[cid], Delivered(y, es);
            && (SentAgain(y, es, cid) ==> d == Some(true))
            && (!SentAgain(y, es, cid) ==> c.Waiting? || c.Resumed? || c == BrowserTab.Settled(401))
            && (c.Settled? ==> d.Some? && (SentAgain(y, es, cid) <==> d == Some(true)))
    decreases |es|
  {
    if es != [] {
      var y1 := Happen(y, es[0]);
      WaitsOn(y, es[0], cid);
      if UnderWay(y1.tab.flight) {
        WaitingCallComesTo(y1, es[1..], cid);
      } else {
        ToldCallComesTo(y1, es[1..], cid, y1.tab.flight.ok);
      }
    }
  }

  /**
   A call whose first attempt is answered 401, login excepted, joins the refresh
   under way, or one that has just resolved, or starts one; and it is sent a
   second time if and only if the answer to that refresh is delivered with
   status 200, and settles with 401 otherwise.
   */
  lemma JoinedCallRetriesIffDelivered(y: Sys, cid: nat, es: seq<Event>)
    requires Possible(y, ContinueCall(cid)) && ValidHistory(Happen(y, ContinueCall(cid)), es)
    requires var c := y.tab.calls[cid]; c.status == 401 && !c.retry && c.kind != LoginCall
    ensures var y1 := Happen(y, ContinueCall(cid));
            var sent, d := SentAgain(y1, es, cid), Delivered(y1, es);
            && cid in HappenAll(y1, es).tab.calls
            && var c := HappenAll(y1, es).tab.calls[cid];
            && (sent ==> d == Some(true))
            && (!sent ==> c.Waiting? || c.Resumed? || c == BrowserTab.Settled(401))
            && (c.Settled? ==> d.Some? && (sent <==> d == Some(true)))
  {
    var y1 := Happen(y, ContinueCall(cid));
    if UnderWay(y1.tab.flight) {
      WaitingCallComesTo(y1, es, cid);
    } else {
      ToldCallComesTo(y1, es, cid, y1.tab.flight.ok);
    }
  }

  /** Until it is cleared, the flight holds what became of the refresh. */
  lemma {:induction false} FlightHoldsOutcome(y: Sys, es: seq<Event>)
    requires ValidHistory(y, es) && !y.tab.flight.Free? && ClearFlight !in es
    ensures var f := HappenAll(y, es).tab.flight;
            match Delivered(y, es)
            case None => UnderWay(f)
            case Some(ok) => f == Stored(ok) || f == Resolved(ok)
    decreases |es|
  {
    if es != [] {
      FlightGoesOn(y, es[0]);
      FlightHoldsOutcome(Happen(y, es[0]), es[1..]);
    }
  }

  lemma FlightGoesOn(y: Sys, e: Event)
    requires Possible(y, e) && !y.tab.flight.Free? && e != ClearFlight
    ensures var f := Happen(y, e).tab.flight;
            if UnderWay(y.tab.flight) then
              if e.LandRefresh? then f == Stored(y.tab.flight.response.status == 200)
              else if e.LoseRefreshAnswer? || e.LoseRefreshRequest? then f == Stored(false)
              else UnderWay(f)
            else f == Stored(y.tab.flight.ok) || f == Resolved(y.tab.flight.ok)
  {
  }
}
