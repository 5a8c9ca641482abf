/**
 The client half of the refresh protocol: the retry-once, single-flight refresh
 of web/src/lib/api.ts. An `await` cuts the client code into events.
 */
module BrowserTab {
  import opened Prelude
  import opened AccessTokens
  import opened SessionManager

  /** What a response does to the auth cookies. */
  datatype Cookies = Keep | Clear | SetAuth(token: RefreshToken, access: Claims)

  datatype Response = Response(status: nat, cookies: Cookies)

  datatype Kind = LoginCall | LogoutCall | PasswordCall | PageCall

  /** One `apiFetch`, by the await it hangs on; `retry` marks the second attempt, made with skipRefresh. */
  datatype Call =
    | Sent(kind: Kind, jar: Option<RefreshToken>, access: Option<Claims>, retry: bool)
    | Replied(kind: Kind, retry: bool, response: Response)
    | Landed(kind: Kind, retry: bool, status: nat)     // cookies stored, continuation still queued
    | Waiting(kind: Kind)                              // on the shared refresh promise
    | Resumed(kind: Kind, refreshed: bool)
    | Settled(status: nat)

  /** The module variable refreshInFlight, `Free` when null. */
  datatype Flight =
    | Free
    | Asking(sent: Option<RefreshToken>)
    | Answered(sent: Option<RefreshToken>, response: Response)
    | Stored(ok: bool)                                 // cookies stored, fetch not yet settled
    | Resolved(ok: bool)                               // settled, microtask not yet run

  datatype Tab = Tab(jar: Option<RefreshToken>, access: Option<Claims>, flight: Flight, calls: map<nat, Call>)

  function Store(t: Tab, c: Cookies): Tab {
    match c
    case Keep => t
    case Clear => t.(jar := None, access := None)
    case SetAuth(token, access) => t.(jar := Some(token), access := Some(access))
  }

  function Send(t: Tab, cid: nat, kind: Kind, retry: bool): Tab {
    t.(calls := t.calls[cid := Sent(kind, t.jar, t.access, retry)])
  }

  /** The continuation of rawFetch inside apiFetch: a first 401 goes through tryRefresh. */
  function Continue(t: Tab, cid: nat): Tab
    requires cid in t.calls && t.calls[cid].Landed?
  {
    var c := t.calls[cid];
    if c.status == 401 && !c.retry && c.kind != LoginCall then
      match t.flight
      case Free => t.(flight := Asking(t.jar), calls := t.calls[cid := Waiting(c.kind)])
      case Resolved(ok) => t.(calls := t.calls[cid := Resumed(c.kind, ok)])
      case _ => t.(calls := t.calls[cid := Waiting(c.kind)])
    else t.(calls := t.calls[cid := Settled(c.status)])
  }

  function ResolveFlight(t: Tab): Tab
    requires t.flight.Stored?
  {
    t.(flight := Resolved(t.flight.ok),
       calls := map cid | cid in t.calls ::
         if t.calls[cid].Waiting? then Resumed(t.calls[cid].kind, t.flight.ok) else t.calls[cid])
  }

  function Resume(t: Tab, cid: nat): Tab
    requires cid in t.calls && t.calls[cid].Resumed?
  {
    if t.calls[cid].refreshed then Send(t, cid, t.calls[cid].kind, true)
    else t.(calls := t.calls[cid := Settled(401)])
  }

  /** The tab's state as the client code keeps it, changed in place event by event. */
  class Client {
    var jar: Option<RefreshToken>
    var access: Option<Claims>
    var refreshInFlight: Flight
    var calls: map<nat, Call>

    function View(): Tab
      reads this
    {
      Tab(jar, access, refreshInFlight, calls)
    }

    constructor ()
      ensures View() == Tab(None, None, Free, map[])
    {
      jar, access, refreshInFlight, calls := None, None, Free, map[];
    }

    method StoreCookies(c: Cookies)
      modifies this`jar, this`access
      ensures View() == Store(old(View()), c)
      ensures c.SetAuth? ==> jar == Some(c.token) && access == Some(c.access)
      ensures c.Clear? ==> jar.None? && access.None?
      ensures c.Keep? ==> jar == old(jar) && access == old(access)
    {
      match c {
        case Keep =>
        case Clear => jar, access := None, None;
        case SetAuth(token, a) => jar, access := Some(token), Some(a);
      }
    }

    method RawFetch(cid: nat, kind: Kind, skipRefresh: bool)
      modifies this`calls
      ensures View() == Send(old(View()), cid, kind, skipRefresh)
      ensures calls == old(calls)[cid := Sent(kind, jar, access, skipRefresh)]
    {
      calls := calls[cid := Sent(kind, jar, access, skipRefresh)];
    }

    /** tryRefresh up to its await: join the flight under way, or start one with the cookie held now. */
    method TryRefresh(cid: nat, kind: Kind)
      modifies this`refreshInFlight, this`calls
      ensures refreshInFlight == if old(refreshInFlight).Free? then Asking(jar) else old(refreshInFlight)
      ensures calls == old(calls)[cid := if refreshInFlight.Resolved? then Resumed(kind, refreshInFlight.ok) else Waiting(kind)]
    {
      if refreshInFlight == Free {
        refreshInFlight := Asking(jar);
      }
      calls := calls[cid := if refreshInFlight.Resolved? then Resumed(kind, refreshInFlight.ok) else Waiting(kind)];
    }

    method ApiFetchContinue(cid: nat)
      requires cid in calls && calls[cid].Landed?
      modifies this`refreshInFlight, this`calls
      ensures View() == Continue(old(View()), cid)
      ensures var c, f := old(calls)[cid], old(refreshInFlight);
              if c.status == 401 && !c.retry && c.kind != LoginCall then
                && refreshInFlight == (if f.Free? then Asking(jar) else f)
                && calls == old(calls)[cid := if f.Resolved? then Resumed(c.kind, f.ok) else Waiting(c.kind)]
              else
                refreshInFlight == f && calls == old(calls)[cid := Settled(c.status)]
    {
      var c := calls[cid];
      if c.status == 401 && !c.retry && c.kind != LoginCall {
        TryRefresh(cid, c.kind);
      } else {
        calls := calls[cid := Settled(c.status)];
      }
    }

    method ApiFetchResume(cid: nat)
      requires cid in calls && calls[cid].Resumed?
      modifies this`calls
      ensures View() == Resume(old(View()), cid)
      ensures calls == old(calls)[cid := if old(calls)[cid].refreshed then Sent(old(calls)[cid].kind, jar, access, true) else Settled(401)]
    {
      if calls[cid].refreshed {
        RawFetch(cid, calls[cid].kind, true);
      } else {
        calls := calls[cid := Settled(401)];
      }
    }

    /** The shared promise resolves: every waiter is handed the same result. */
    method ResolveRefresh()
      requires refreshInFlight.Stored?
      modifies this`refreshInFlight, this`calls
      ensures View() == ResolveFlight(old(View()))
      ensures refreshInFlight == Resolved(old(refreshInFlight).ok) && calls.Keys == old(calls).Keys
      ensures forall cid :: cid in calls ==>
                calls[cid] == if old(calls)[cid].Waiting? then Resumed(old(calls)[cid].kind, old(refreshInFlight).ok) else old(calls)[cid]
    {
      var ok := refreshInFlight.ok;
      calls := map cid | cid in calls ::
        if calls[cid].Waiting? then Resumed(calls[cid].kind, ok) else calls[cid];
      refreshInFlight := Resolved(ok);
    }

    method ClearRefresh()
      requires refreshInFlight.Resolved?
      modifies this`refreshInFlight
      ensures View() == old(View()).(flight := Free) && refreshInFlight == Free
    {
      refreshInFlight := Free;
    }
  }
}
