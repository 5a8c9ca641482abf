# ControlRoom: a verified model of its stateful core

ControlRoom is a small server panel. Most of it is plumbing; five parts carry
state whose guarantees have to hold over unbounded runs, and those are modelled
and proved here in Dafny:

- **Job output** (`TailBuffer`, `JobMachine`, `JobFanout`, `JobStream`): a job
  keeps a bounded tail of its output and fans chunks out to listeners with
  bounded queues; a WebSocket handler relays one listener to a browser.
- **Refresh sessions** (`SessionStore`, `SessionManager`, `SessionChains`,
  `SessionInterleaving`, `SessionForks`, `AccessControl`, `BrowserTab`,
  `BrowserRefresh`): rotating refresh tokens with reuse detection, once with
  every server call as one step and once with every SQL statement as one step,
  and the browser's single-flight refresh on top of the latter.
- **Login throttling** (`RateLimit`, `LoginBackoff`): a token bucket per IP with
  lazy refill and garbage collection, exponential backoff per username, and the
  login handler that orders them.
- **Kubernetes edits** (`ClusterStore`, `YamlFields`, `KubeNames`, `Manifest`,
  `ManifestEditor`, `ConfigMapSave`): optimistic concurrency for the YAML editor and the ConfigMap
  save, on a store that rejects stale versions.
- **Docker logs and network rates** (`LogDemux`, `NetRates`): a frame parser
  inverted against its encoder, and a cached sampler whose rates telescope.

Code that updates state in place is a class or a loop here, proved against a
function of the old state; the theorems about whole runs are lemmas about those
functions. The main operations are also told once more without that function, from
the columns, constants and replies themselves (the lemmas ending in `SpelledOut`
and the clauses of the methods), so that function and method cannot drift together. Concurrency is a state machine: each mutex section, SQL statement,
request handler or stretch of client code between two awaits is one event, and
events interleave freely. Times are nanoseconds as integers (sessions) or seconds
as reals (throttling, rates). Minted ids, secrets, clock readings, credential
checks and the API server's admission decisions are parameters; hashes and
signatures are injective constructors.

Check everything with `dafny verify dfyconfig.toml`.

## What came out

- A tab never provokes reuse detection, under any interleaving down to the
  statements of every rotation, whatever requests and answers are lost but one
  kind. The answer to a refresh, given or still being worked on, may be lost
  without consequence if and only if the jar no longer holds the token sent, or
  that token has not been replaced and is not going to be: the answer granted
  nothing, or the handler is on a path that grants nothing, or it has yet to read
  a session that is revoked or expired already (`AnswerMayBeLostIff`). A connection
  that breaks earlier under a handler about to rotate is among the harmful losses:
  the tab asks again with the same token and one of the two rotations burns the
  family.
- With `Rotate` split into its statements the one-chain picture is lost: two
  overlapping rotations leave two active children (`TwoLiveChildren`). A session
  is safe from a second child if and only if it is revoked or expired and has, or
  is about to be given, at most one (`NoSecondChildIff`); without two overlapping
  rotations of one session the chains survive (`ChainsSurviveWithoutOverlap`). A
  family burned by reuse detection stays dead, and a user signed out by a password
  change stays signed out, exactly when no rotation is stalled between reading an
  active session and inserting the child (`BurnIsFinalIffNoneStalled`,
  `PasswordChangeIsFinalIffNoneStalled`).
- A job stream that ends with the job is complete exactly when no output is left
  in its queue and its channel was still open at the output's final byte
  (`ExitIsCompleteIffNothingLeft`). Leaving through the done signal can miss either
  condition, leaving through the closed channel only the second; the final state
  frame does not tell the difference.
- The network rates of an interface present in every successful sample never
  exceed its counter's growth, but can miss some: a failed read empties the
  previous sample, so the growth across it is never reported
  (`FailedReadLosesGrowth`). Nothing but rounding is lost if and only if the
  counter stood still across every gap (`RisingRatesTelescope`).
- The cross-checks of a manifest's kind, name and namespace do fire although the
  handler takes all three from the same text: it reads field names ignoring case,
  they do not. Within ASCII they fire if and only if one of the fields is missing,
  or not a string, under its exact name (`CrossChecksFireIff`); a document with
  `Kind` for `kind` is one (`MiscasedKindIsMismatch`).
- An accepted apply of the YAML editor always overwrites the revision it held, but
  a sheet that moves on to an object not loaded before keeps text and version of
  the one before, and applies those (`SwitchedSheetOverwritesPreviousObject`); one
  that stays keeps to its object (`UnswitchedSheetKeepsToItsObject`).
- The ConfigMap save overwrites data its page was not showing if and only if the
  object already held other data at the save's own read
  (`UnseenDataIsOverwrittenIff`).
- The comments at internal/jobs/jobs.go:8-10 and 84-85 promise the full output so
  far; the code gives the retained tail, which is the full output exactly while
  that fits the buffer (`SnapshotIsWholeIffItFits`). The comment
  at internal/api/settings/settings.go:104 speaks of every other session; the code
  revokes all of them. The comment at internal/docker/logs.go:28-29 requires zero
  padding; the code never looks at it, and neither does the theorem.

## Model

| member | source | states |
|---|---|---|
| TailBuffer.PushedIsTailOfAll | internal/jobs/jobs.go:227-248 | After any writes of any sizes, for any capacity, the buffer holds exactly the last min(cap, total) bytes of everything written. |
| TailBuffer.TailOfTail | internal/jobs/jobs.go:227-242 | Forgetting all but the tail early loses nothing a later tail would show. |
| TailBuffer.ByteBuffer.Write | internal/jobs/jobs.go:241 | Appending keeps what was there, whether or not the array had to grow. |
| TailBuffer.ByteBuffer.WriteFromSelf | internal/jobs/jobs.go:237-239 | The overlapping shift within one array yields exactly the kept stretch. |
| TailBuffer.RingBuffer.Write | internal/jobs/jobs.go:227-242 | One write, in place, leaves the tail of old contents plus new bytes in all three cases. |
| TailBuffer.RingBuffer.Snapshot | internal/jobs/jobs.go:244-248 | The snapshot is the buffer's contents. |
| JobMachine.SubscriberSeesSeamlessOutput | internal/jobs/jobs.go:86-139 | In every run, snapshot, taken and queued chunks are one gapless stretch of the output from the tail retained at subscription to the current end, the final end, or the point of dropping; at most 32 chunks wait. |
| JobMachine.SnapshotIsWholeIffItFits | internal/jobs/jobs.go:84-90 | A subscriber's snapshot is the full output so far if and only if that output is no longer than the buffer's capacity. |
| JobMachine.NextKeepsGood | internal/jobs/jobs.go:86-192 | Every event keeps all subscriptions seamless, queues bounded, and no channel open once the job has finished. |
| JobMachine.RunContinues | internal/jobs/jobs.go:104-136 | Between any two points of a run no channel reopens, closes for a second reason or receives once closed, no chunk is lost or reordered, and a finished job stays as it finished. |
| JobMachine.RunTellsOutcome | internal/jobs/jobs.go:173-182 | In every run a job finishes at most once; it is Succeeded exactly when its function returned no error, Cancelled exactly when it returned the cancelled context, Failed with that very message for any other error, and Running before. |
| JobMachine.DroppedIffQueueFull | internal/jobs/jobs.go:129-135 | A listener is dropped exactly when a write finds 32 chunks waiting. |
| JobFanout.Channel.TrySend | internal/jobs/jobs.go:129-131 | The non-blocking send queues below capacity, refuses at capacity, and is never made on a closed channel. |
| JobFanout.Channel.Close | internal/jobs/jobs.go:134 | A channel is only ever closed while open, on every path. |
| JobFanout.Job.Subscribe | internal/jobs/jobs.go:86-111 | Takes the machine's subscribe step: tail snapshot, registered fresh channel while running, closed channel and no handle afterwards. |
| JobFanout.Job.Unsubscribe | internal/jobs/jobs.go:103-110 | The channel ends up closed and unregistered, whether or not it still was; every other channel and all queues stay as they are. |
| JobFanout.Job.Write | internal/jobs/jobs.go:122-139 | Buffer and every listener, in whatever order the map yields them, end as the machine's write step says: an open channel with fewer than 32 chunks waiting gets the chunk, a fuller one is closed, a closed one is left alone. |
| JobFanout.Job.Finish | internal/jobs/jobs.go:173-190 | The state tells what the function returned, Failed with its message for an error; every channel is closed, none twice, with its queue as it was, and none stays registered. |
| JobFanout.Job.CloseDone | internal/jobs/jobs.go:191 | The done signal follows the finish and is given once. |
| JobStream.BrowserSeesGaplessOutput | internal/api/updates/updates.go:158-200 | However a stream stands or ended, the browser was sent a gapless stretch of the output from the tail retained at subscription. |
| JobStream.ExitIsCompleteIffNothingLeft | internal/api/updates/updates.go:184-199 | A stream that ended with the job left out exactly the queued chunks and what came after a drop; it is complete if and only if the queue holds no output and the channel was open until the final byte. |
| JobStream.ClosedByFinishIsComplete | internal/api/updates/updates.go:184-190 | Leaving through a channel the finish closed means everything up to the final byte was relayed. |
| JobStream.StreamEndsWithOutcome | internal/api/updates/updates.go:161-199 | A stream opens with the snapshot, if there is one, and a state; leaving through the closed channel or the done signal its last frame is the state that tells what the run's one finish returned, or Running to a listener dropped as too slow. |
| JobStream.DoneCanOvertakeOutput | internal/api/updates/updates.go:195-198 | From any point of a stream on a running job, the done branch can end it without the job's last output. |
| SessionStore.DB.CreateSession | internal/store/sessions.go:36-44 | Inserts the row if the primary and foreign keys allow it and otherwise changes nothing. |
| SessionStore.DB.SessionByID | internal/store/sessions.go:46-67 | Finds exactly the row stored under the id. |
| SessionStore.DB.RevokeSession | internal/store/sessions.go:69-74 | Marks the one row, once. |
| SessionStore.DB.RevokeFamily | internal/store/sessions.go:78-84 | Marks every active row of the family and no other. |
| SessionStore.DB.RevokeAllForUser | internal/store/sessions.go:86-92 | Marks every active row of the user and no other. |
| SessionStore.DB.HasSessionChildren | internal/store/sessions.go:98-108 | True exactly when some row names the session as its parent. |
| SessionStore.StatementsGrow | internal/store/sessions.go:36-92 | No statement removes a row, changes an identity column or undoes a revocation. |
| SessionManager.Manager.Issue | internal/auth/sessions.go:31-65 | Starts a family with one active root, or reports an error with the table unchanged. |
| SessionManager.Manager.Rotate | internal/auth/sessions.go:80-146 | Reply and resulting table of every branch, in the source's order of statements, with the replies and rows written out. |
| SessionManager.RotateSpelledOut | internal/auth/sessions.go:80-146 | Which of the four replies a token gets, from the row's own columns: invalid when unknown, revoked without a child, past its expiry or without a user; reuse when revoked with a child; an internal error only if the minted id is taken. A replay revokes the family's active rows, an expired row is revoked, every other row stays. |
| SessionManager.Manager.Revoke | internal/auth/sessions.go:149-151 | Logging out marks that session only. |
| SessionManager.RotatedTokenIsReplayForever | internal/auth/sessions.go:88-97 | A token that rotated once is reported as reuse whenever presented later, whatever happened since, and its family is left without an active session. |
| SessionManager.MintedTokenRotatesNext | internal/auth/sessions.go:111-146 | Presented next, the new token is rotated exactly until its seven days, counted in whole seconds, are over, and is answered as invalid afterwards. |
| SessionManager.LoggedOutTokenIsInvalidOnly | internal/auth/sessions.go:88-100 | A logged-out token that never rotated is invalid, not reuse, and changes nothing. |
| SessionChains.FamiliesAreChains | internal/auth/sessions.go:31-146 | In every reachable table parent and child share family and user, a parent is revoked, has one child, links never cycle, a family is one line of descent and has at most one active session. |
| SessionChains.NextKeepsChains | internal/auth/sessions.go:31-151 | Logins, rotations, logouts, password changes and time all keep families single chains whose last place alone can be active. |
| SessionChains.RunGrows | internal/store/sessions.go:69-92 | Over any run revocation is never undone and rows keep their identity. |
| SessionChains.StepSpelledOut | internal/store/sessions.go:36-92 | What each step leaves in the table, row by row: logins insert one active root, logouts mark one row, password changes every active row of the user, rotations as above; time changes no row. |
| SessionChains.ReplayEndsFamily | internal/auth/sessions.go:88-97 | After a replay no later state has an active session of the family and every token of it is refused; other families' rows are untouched. |
| SessionInterleaving.UndisturbedRotationIsAtomic | internal/auth/sessions.go:80-146 | Left alone, the separate statements of a rotation add up to the one-step rotation, reply and table alike. |
| SessionInterleaving.UndisturbedRotationSpelledOut | internal/auth/sessions.go:80-146 | So the end of an undisturbed rotation, reply and rows, is the one the columns tell. |
| SessionInterleaving.LinksSurviveInterleaving | internal/auth/sessions.go:81-133 | With any number of rotations interleaved statement by statement, links never cycle, stay in family and user, and a session with a child is revoked unless some rotation is between its create and its revoke. |
| SessionInterleaving.RevocationSurvivesInterleaving | internal/store/sessions.go:69-84 | Between any two points of any interleaving no revocation is undone and no row lost. |
| SessionInterleaving.BurnIsFinalIffNoneStalled | internal/auth/sessions.go:95-133 | A dead family stays dead in every continuation if and only if no rotation stands between reading an active session of it and inserting the child. |
| SessionInterleaving.TwoLiveChildren | internal/auth/sessions.go:81-133 | From any rotatable token two overlapping rotations reach two active children of one parent. |
| SessionInterleaving.PasswordChangeIsFinalIffNoneStalled | internal/api/settings/settings.go:101-105 | After a password change every session of the user then, and every descendant of one in any continuation, is revoked if and only if no rotation of the user stands between reading an active session and inserting the child. |
| SessionForks.NoSecondChildIff | internal/auth/sessions.go:88-133 | A session gets no second child in any continuation if and only if it is revoked or expired and its children and the rotations about to insert one number at most one. |
| SessionForks.MoveKeepsGuarded | internal/auth/sessions.go:88-133 | Every statement of every call keeps a guarded session guarded. |
| SessionForks.ChainsSurviveWithoutOverlap | internal/auth/sessions.go:81-133 | In every interleaving in which no two rotations of one session overlap, families stay single lines of descent with at most one session that is neither revoked nor just being replaced. |
| AccessControl.RequireAuthSpelledOut | internal/api/middleware/auth.go:23-58 | Admitted are exactly signed access tokens within their lifetime whose session is there and unrevoked and whose user is known, with the token's own claims and the role on record; each refusal is given exactly when its check is the first to fail. |
| AccessControl.AdmittedSessionIsLive | internal/api/middleware/auth.go:23-58 | Whoever is admitted holds an unrevoked, unexpired session of the claimed user, the only active one of its family, although neither row expiry nor row owner is checked. |
| AccessControl.IssuedTokenIsAdmittedWhileActive | internal/auth/jwt.go:65-95 | A token just issued is admitted at any later point exactly while its session is unrevoked and its own lifetime runs. |
| AccessControl.PasswordChangeShutsOutOldTokens | internal/api/settings/settings.go:101-105 | After a password change no access token issued to the user before is admitted in any later state, calls being atomic. |
| AccessControl.LogoutShutsOutItsTokens | internal/api/auth/auth.go:125-137 | After a logout no access token of that session is admitted in any later state. |
| AccessControl.AdmittedSessionIsOwn | internal/api/middleware/auth.go:23-58 | However rotations interleave, whoever is admitted holds an unrevoked session of the user the token claims. |
| AccessControl.PasswordChangeShutsOutIffNoneStalled | internal/api/settings/settings.go:101-105 | With rotations interleaved, no token of a session the user had at a password change, or of a descendant, is admitted in any continuation if and only if no rotation of the user stood between reading an active session and inserting the child. |
| BrowserTab.Client.StoreCookies | internal/auth/cookies.go:48-72 | A response keeps, clears or replaces the auth cookies. |
| BrowserTab.Client.TryRefresh | web/src/lib/api.ts:35-53 | Joins the refresh under way, or starts one with the cookie held now. |
| BrowserTab.Client.ApiFetchContinue | web/src/lib/api.ts:100-119 | A first 401 outside login joins the refresh under way, takes the result of one just resolved, or starts one with the cookie held now; everything else settles with the status it got. |
| BrowserTab.Client.ApiFetchResume | web/src/lib/api.ts:112-117 | A successful refresh retries once without another refresh; a failed one passes the 401 on. |
| BrowserTab.Client.ResolveRefresh | web/src/lib/api.ts:44-50 | Every waiting call resumes with whether the refresh succeeded, every other call stays as it was, and the flight keeps that result. |
| BrowserTab.Client.ClearRefresh | web/src/lib/api.ts:49 | The flight is cleared in a microtask of its own, after the waiters were resolved. |
| BrowserRefresh.JoinedCallRetriesIffDelivered | web/src/lib/api.ts:35-53 | In every history a call whose first attempt got a 401, login excepted, is sent a second time if and only if the answer to the refresh it joined was delivered with status 200, and otherwise settles with 401. |
| BrowserRefresh.FlightHoldsOutcome | web/src/lib/api.ts:36-50 | Until it is cleared the flight holds what became of its refresh: under way, succeeded if its answer was delivered with 200, and failed otherwise or when lost. |
| BrowserRefresh.RefreshHandlerAnswers | internal/api/auth/auth.go:139-174 | New cookies with 200 for a rotation, cleared cookies with 401 for reuse and for an invalid session, 500 with the cookies kept otherwise, 401 without a cookie. |
| BrowserRefresh.HandlerSpelledOut | internal/api/auth/auth.go:57-137 | Answer, cookies and server rows of every ordinary handler: who is not let in gets 401, a login sets the minted cookies or reports 500, a logout clears them and marks the session, a password change revokes the user's sessions, any other page changes nothing. |
| BrowserRefresh.TabNeverTripsReuse | web/src/lib/api.ts:33-119 | In every history of one tab against the server, rotations running statement by statement and other clients included, requests, answers the tab can do without and connections under a running handler being lost, no rotation of the tab ends as reuse, and the jar holds no rotated token while no refresh is under way. |
| BrowserRefresh.HappenKeepsInvariant | web/src/lib/api.ts:33-119 | Every event keeps the invariant: a token the tab lives on is spent only while the one replacing it is on its way, nobody else is about to spend it, and no rotation the tab has lost sight of can end as reuse. |
| BrowserRefresh.AbandonedKeepsInvariant | internal/auth/sessions.go:81-133 | A rotation whose connection broke runs on to its end without reporting reuse or cutting into the tab's tokens. |
| BrowserRefresh.AdvanceSpends | internal/auth/sessions.go:81-133 | The statements of the tab's own rotation spend the token sent, at the insert, and no other. |
| BrowserRefresh.ServeKeepsSafe | internal/api/auth/auth.go:57-137 | Login, logout, password change and page responses never hand out or spend a token that is in use. |
| BrowserRefresh.AtomicRefreshIsAHistory | internal/api/auth/auth.go:139-174 | A refresh handler that runs whole is one of these histories: it answers what the one-step rotation replies and leaves its table. |
| BrowserRefresh.AnswerMayBeLostIff | web/src/lib/api.ts:38-46 | Losing the answer to a refresh, before or after the handler has finished, lets no continuation end in reuse if and only if the jar no longer holds the token sent, or that token has not been replaced and is not going to be. |
| BrowserRefresh.UnabsorbedLossIsForGood | internal/auth/sessions.go:88-97 | If an answer that granted a new token is lost and the jar holds the old one, that one is a replay in every later server state. |
| BrowserRefresh.NewTabIsOpened | web/src/lib/api.ts:33 | A tab opened without cookies on any reachable server state, rotations of others under way or not, meets the theorem's assumptions. |
| RateLimit.IPLimiter.Allow | internal/auth/ratelimit.go:40-65 | Answer, waiting time and buckets after one call, sweep included, from the tokens found: what was left plus a sixtieth of the capacity a second, capped. |
| RateLimit.AllowSpelledOut | internal/auth/ratelimit.go:40-76 | A call is allowed exactly when it finds a whole token, pays it or is told the time to it plus a second, and leaves every other bucket that outlives the sweep as it was. |
| RateLimit.IPLimiter.ExpireLocked | internal/auth/ratelimit.go:67-76 | From 1024 buckets on, deletes exactly those idle for more than ten minutes. |
| RateLimit.AdmittedInAnyWindow | internal/auth/ratelimit.go:40-76 | In every run and every window [s,t] the calls admitted for one key number at most capacity + refill·(t−s). |
| RateLimit.SweepingIsUnobservable | internal/auth/ratelimit.go:57-76 | No call sequence can tell the limiter from one that never deletes a bucket. |
| RateLimit.CallSpends | internal/auth/ratelimit.go:52-64 | A call is admitted exactly when a whole token is there, costs its key that token and no other key anything. |
| RateLimit.RetryAfterSuffices | internal/api/auth/auth.go:58-60 | A denied caller making no other call on the key is admitted exactly when the missing part of a token has flowed in; the whole seconds of Retry-After suffice and exceed it by at most one second. |
| LoginBackoff.UserBackoff.CanAttempt | internal/auth/ratelimit.go:100-109 | Refuses up to and including the stored instant and reports what is left. |
| LoginBackoff.UserBackoff.Failure | internal/auth/ratelimit.go:111-128 | Counts the failure and sets the next allowed instant by thirty seconds doubled per failure, capped at an hour; no other username changes. |
| LoginBackoff.UserBackoff.Success | internal/auth/ratelimit.go:130-134 | Forgets the username. |
| LoginBackoff.LoginHandler | internal/api/auth/auth.go:57-123 | The limiter, the body checks, the backoff gate, the verdict and the success reset act in this order, each early exit leaving the later gates untouched; response and backoff entries are written out. |
| LoginBackoff.LoginSpelledOut | internal/api/auth/auth.go:57-123 | LoggedIn if and only if the limiter admits, the body is complete, the username may attempt and the verdict is right; Unauthorized for every other verdict that gets that far; TooManyRequests exactly when a gate refuses; BadRequest exactly for a bad body the limiter lets through. The backoff entry changes only for an unknown user, a bad password, a bad code and a success; a missing code leaves it. |
| LoginBackoff.OnlyRightLogsIn | internal/api/auth/auth.go:71-116 | In every run an attempt is answered LoggedIn only if its own verdict is right, so a username that never has the right credentials never logs in. |
| LoginBackoff.ClampedShiftIsCappedExponential | internal/auth/ratelimit.go:121-124 | For every failure count the clamped shift gives the unclamped exponential capped at one hour. |
| LoginBackoff.TotalDelayClosedForm | internal/auth/ratelimit.go:121-124 | The first m delays sum to 30·(2^m−1), and from the eighth on grow by 3600 each. |
| LoginBackoff.FailuresBackOff | internal/api/auth/auth.go:71-113 | Over every run without success for a username, failure k+1 comes more than min(30·2^(k−1),3600) seconds after failure k and n failures span more than the closed-form sum. |
| LogDemux.DemuxInvertsFraming | internal/docker/logs.go:35-53 | Encoding any frames and parsing them back yields each payload's lines in order under its stream; breaking off inside a further frame yields exactly the lines of the whole ones. |
| LogDemux.PrintedLinesSurvive | internal/docker/logs.go:40-90 | Non-empty lines printed one to a frame, with any run of carriage returns before the newline, reach the reader unchanged and in order, those framed with id 1 as stdout, 2 as stderr and 0 as stdin. |
| LogDemux.CutStreamYieldsPrefix | internal/docker/logs.go:35-53 | Any byte stream cut anywhere yields a prefix of its lines. |
| LogDemux.SplitJoins | internal/docker/logs.go:69 | The pieces contain no newline and joined by newlines give the payload back. |
| LogDemux.SplitIsUnique | internal/docker/logs.go:69 | No other newline-free pieces do. |
| LogDemux.TrimReturns | internal/docker/logs.go:76 | Removes exactly the trailing carriage returns. |
| LogDemux.Uint32RoundTrip | internal/docker/logs.go:44 | Big-endian lengths below 2^32 survive encoding and decoding. |
| LogDemux.EmitPieces | internal/docker/logs.go:68-79 | Sends the non-empty pieces trimmed and tagged, or a prefix of them when cancelled. |
| LogDemux.PiecesMakeLines | internal/docker/logs.go:68-79 | Every non-empty piece makes one line, in its place, under the frame's stream, without its trailing carriage returns. |
| LogDemux.EmptyPieceIsSilent | internal/docker/logs.go:70-72 | An empty piece anywhere makes no line. |
| LogDemux.ReadFrame | internal/docker/logs.go:40-51 | One round takes a header and a payload of the size its last four bytes announce, the first being the most significant, or finds that the stream ends first. |
| LogDemux.DemuxLogs | internal/docker/logs.go:21-54 | The read loop ends, and unless cancelled has sent exactly the lines of the stream; a first byte above 2, and only that, selects the plain fallback. |
| NetRates.NetDiff | internal/collectors/net.go:56-78 | Every interface but loopback once, sorted by name, with its own counters and, for either direction, the rate whose seconds amount to its growth within a byte a second, zero for new interfaces and counters that went back; without elapsed time over one second. |
| NetRates.Aggregator.Snapshot | internal/collectors/aggregator.go:40-119 | Within 0.9 seconds answers from the cache and changes nothing; otherwise the answer is the list of differences between the sample remembered and this one over the seconds between them, and sample, time and answer are remembered. |
| NetRates.RateBounds | internal/collectors/net.go:68-72 | A rate times the elapsed seconds is at most the growth and less than one byte per second short of it. |
| NetRates.RatesAccountForObservedGrowth | internal/collectors/aggregator.go:44-118 | In every run, failed reads and vanishing interfaces included, the bytes the rates stand for are within the observed seconds of the growth observed between consecutive samples, and never more. |
| NetRates.RisingRatesTelescope | internal/collectors/aggregator.go:44-118 | With a counter that never drops between the samples that show it, whatever samples fail, the rates account for at most the counter's growth, and for all but rounding and the growth across gaps, which is zero if and only if all growth was observed. |
| NetRates.SteadyRatesTelescope | internal/collectors/net.go:56-78 | If every sample shows the interface, for all of the growth within the elapsed seconds. |
| NetRates.FailedReadLosesGrowth | internal/collectors/aggregator.go:66-69 | From any state, after any samples that fail or lack the interface, the sample that shows it again reports none of the growth since it was last shown. |
| ClusterStore.UpdateKeepsRecorded | internal/k8s/manifest.go:148-153 | A write adds at most one recorded revision, under the version never used before, and rewrites none; a refused one changes nothing. |
| Manifest.Unstructured.StripMeta | internal/k8s/manifest.go:62-78 | Removes managedFields, creationTimestamp, uid, resourceVersion, generation and the status and nothing else, everything kept being as it was; without a metadata map it changes nothing at all. |
| Manifest.StrippedForEditing | internal/k8s/manifest.go:62-78 | The same of the function the round trip is about, the five names written out: labels, annotations and every other field stay. |
| Manifest.KubeClient.Get | internal/k8s/manifest.go:81-103 | For the five editable kinds and objects that exist, the version stored and the object without the five managed fields and the status, everything else as stored. |
| Manifest.KubeClient.Apply | internal/k8s/manifest.go:108-154 | Every check in order, then the versioned update. |
| Manifest.ApplySpelledOut | internal/k8s/manifest.go:108-169 | Which answer each failed check gets, a stale version a conflict and a missing object not found; a success writes the one object under the next version, and anything else writes nothing. |
| Manifest.HandlerSpelledOut | internal/api/k8s/k8s.go:1085-1190 | A request without version, address, editable kind or valid names is a bad one and changes nothing; any other is applied to the object its text names. |
| KubeNames.ValidNameIsDottedLabels | internal/api/k8s/k8s.go:55-60 | The names let through are those of up to 253 characters that are dotted DNS-1123 labels. |
| Manifest.GetThenApplyRoundTrip | internal/k8s/manifest.go:81-154 | Loading and applying unchanged addresses the same object under the version loaded and sends every field but the status and the five managed ones, labels and annotations included, as stored. |
| Manifest.CrossChecksFireIff | internal/api/k8s/k8s.go:1107-1132 | The kind check never fires; a mismatch is answered exactly when the exact field names do not say what the handler read ignoring case, which within ASCII means that kind, metadata, name or namespace is missing or no string under its exact name. |
| Manifest.MiscasedKindIsMismatch | internal/k8s/manifest.go:128-132 | A service whose kind is spelled Kind passes the handler's checks and is answered as a mismatch. |
| YamlFields.ExactDecodes | internal/api/k8s/k8s.go:1195-1219 | Where all four exact names hold strings and other spellings stay within ASCII, the decoder that ignores case reads those strings. |
| Manifest.HandlerChecksVersion | internal/api/k8s/k8s.go:1085-1190 | Success means the named version was non-empty and current; refusals and dry runs write nothing; a dry run answers with the version it was given. |
| ManifestEditor.Component.OnData | web/src/components/k8s/ManifestEditor.tsx:64-72 | A changed manifest of the object shown replaces text, original and version together; an unchanged one, or one of another object, replaces nothing. |
| ManifestEditor.Component.OnProps | web/src/components/k8s/ManifestEditor.tsx:50-58 | Another object's manifest shows at once if it was loaded before; otherwise text and version stay. |
| ManifestEditor.Component.OnOpen | web/src/components/k8s/ManifestEditor.tsx:74-79 | Reopening shows the cached manifest again and clears the status. |
| ManifestEditor.Component.HandleEditorChange | web/src/components/k8s/ManifestEditor.tsx:83-89 | Typing changes the text and clears success notices only. |
| ManifestEditor.Component.RunApply | web/src/components/k8s/ManifestEditor.tsx:104-107 | The request carries the text and version held at the click. |
| ManifestEditor.Component.OnSuccess | web/src/components/k8s/ManifestEditor.tsx:109-120 | Only a real apply moves the held version, to the one answered. |
| ManifestEditor.Component.OnError | web/src/components/k8s/ManifestEditor.tsx:121-130 | A refusal changes the status alone. |
| EditorProtocol.AcceptedApplyReplacesHeldRevision | web/src/components/k8s/ManifestEditor.tsx:64-133 | No lost update: for any interleaving, any text and sheets that change objects, an accepted apply overwrites exactly the revision held at the click, on the object that revision is one of, as shown by the load or as left by the own write it came from. |
| EditorProtocol.UnswitchedSheetKeepsToItsObject | web/src/components/k8s/ManifestEditor.tsx:104-108 | A sheet that stays with one object overwrites no other, whatever its text says. |
| EditorProtocol.SwitchedSheetOverwritesPreviousObject | web/src/components/k8s/ServiceDetail.tsx:138-146 | From any sheet whose text and version would be accepted, moving on to an object not loaded before and applying overwrites the object of that text. |
| EditorProtocol.AcceptedApplyChangesOneObject | internal/k8s/manifest.go:140-153 | An accepted apply changes the one object its text names and no other. |
| EditorProtocol.DryRunChangesNothing | web/src/components/k8s/ManifestEditor.tsx:104-118 | Whatever happened since the click, serving a dry run leaves the cluster and every desk as they were but for the pending reply, and delivering it changes the status alone. |
| EditorProtocol.DryRunHistoriesWriteNothing | internal/k8s/manifest.go:140-153 | Histories of any editors that start dry runs only leave the cluster as it was, and no version held ever comes from a write. |
| EditorProtocol.StaleApplyIsRefused | internal/k8s/manifest.go:156-160 | Applying under an outdated version writes nothing and is refused, as a conflict if the request is otherwise acceptable. |
| ConfigMapSave.Client.UpdateConfigMap | internal/k8s/configmaps.go:123-131 | The object keeps everything but its data, which becomes the new data; the answer carries its new version; no other object changes, and a refusal changes nothing. |
| ConfigMapSave.AcceptedSaveReplacesDataOnly | internal/k8s/configmaps.go:121-131 | Under any interleaving an admitted save is accepted if and only if the object is still the revision it read, and then leaves it as it stood just before with only its data replaced. |
| ConfigMapSave.UnseenDataIsOverwrittenIff | internal/k8s/configmaps.go:123-130 | Under any interleaving an accepted save overwrites data its page was not showing if and only if the object held other data at the save's own read, which it did not if it was still the revision shown. |
| ConfigMapSave.AnySaveCanOverwriteUnseenData | internal/k8s/configmaps.go:123-130 | From any point before its read, a save can go on to overwrite another writer's data without a conflict. |

## Left out

- SessionManager.Manager.Rotate: database errors other than key violations, and failures of random minting, because their replies depend on code outside the repository; the clock is read once per call.
- JobMachine.SubscriberSeesSeamlessOutput: output is bytes; how a chunk that splits a character is shown as text is not modelled.
- JobFanout.Job.Write: the copy made per listener and the map's own iteration order; the result is proved for every order.
- RateLimit.AdmittedInAnyWindow: a clock that never goes back; the source reads the clock before taking the lock, so contending calls can be charged slightly out of order. Floating-point rounding is not modelled.
- NetRates.NetDiff: counters are unbounded and rates exact reals rounded down.
- Manifest.GetThenApplyRoundTrip: for stored objects that spell the parts of their address in one way, as the API server stores the editable kinds; YAML syntax, repeated keys included, is not modelled.
- LogDemux.DemuxLogs: the plain-text fallback for terminals is only recognised, not parsed.
- ManifestEditor.Component.RunApply: button states; the editor is allowed to click whenever no apply is pending, which is more than the page allows.
- BrowserRefresh.TabNeverTripsReuse: one tab, without reload during a refresh; further tabs sharing the cookie can legitimately end in revocation. A handler cut off by its connection runs on, its database writes succeeding.
- At most one running upgrade: the handler checks and starts without a shared lock, so it holds only for serialised handlers and is then immediate.
- The runner's registry of jobs, cancellation, and the REST snapshot merged by the job page.
- The first-run wizard issues a session the same way a login does and is not modelled separately.
- Two-factor secrets, password hashing, audit entries, CSRF tokens and cookie attributes.
- CPU, memory, disk and temperature figures of the overview.
- React rendering, terminals, dbus, docker and Kubernetes transport, TLS, configuration, apt and ufw parsing, lists and filters.

Nothing was executed; the model and its proofs are the whole of this project.
