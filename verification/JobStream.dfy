/**
 The WebSocket handler that relays a job to one browser
 (jobStreamWS in internal/api/updates/updates.go): it subscribes, sends the
 snapshot and the state, then relays whatever its select finds ready. The job
 and its other subscribers go on meanwhile.
 */
module JobStream {
  import opened Prelude
  import opened TailBuffer
  import opened JobMachine

  datatype Frame = SnapshotFrame(output: bytes) | ChunkFrame(output: bytes) | StateFrame(state: State) | PingFrame

  datatype Phase = Greeting | Relaying | ExitClosed | ExitDone | ExitGone

  datatype Stream = Stream(job: Job, sub: nat, phase: Phase, frames: seq<Frame>)

  datatype Act =
    | Elsewhere(e: Event)            // the job and the other subscribers
    | Greet                          // snapshot frame, if any, then the state as read now
    | Relay(written: bool)           // a chunk is taken; writing it may fail
    | SeeClosed                      // the channel is closed and drained
    | SeeDone                        // the done signal is picked, whatever the channel holds
    | Ping
    | Hangup

  /** subscription and start of the handler */
  function Attach(j: Job): Stream {
    Stream(Next(j, Subscribe), |j.subs|, Greeting, [])
  }

  predicate CanAct(v: Stream, a: Act)
    requires v.sub < |v.job.subs|
  {
    match a
    case Elsewhere(e) => Possible(v.job, e) && e != Receive(v.sub) && e != Unsubscribe(v.sub)
    case Greet => v.phase == Greeting
    case Relay(_) => v.phase == Relaying && v.job.subs[v.sub].queue != []
    case SeeClosed => v.phase == Relaying && v.job.subs[v.sub].queue == [] && v.job.subs[v.sub].closing.Some?
    case SeeDone => v.phase == Relaying && v.job.done
    case Ping => v.phase == Relaying
    case Hangup => v.phase == Greeting || v.phase == Relaying
  }

  function Acted(v: Stream, a: Act): (w: Stream)
    requires v.sub < |v.job.subs| && CanAct(v, a)
    ensures w.sub == v.sub < |w.job.subs|
  {
    match a
    case Elsewhere(e) => v.(job := Next(v.job, e))
    case Greet =>
      var s := v.job.subs[v.sub];
      v.(phase := Relaying,
         frames := (if s.snapshot != [] then [SnapshotFrame(s.snapshot)] else []) + [StateFrame(v.job.state)])
    case Relay(written) =>
      var chunk := v.job.subs[v.sub].queue[0];
      var j := Next(v.job, Receive(v.sub));
      if written then v.(job := j, frames := v.frames + [ChunkFrame(chunk)])
      else v.(job := j, phase := ExitGone)
    case SeeClosed => v.(phase := ExitClosed, frames := v.frames + [StateFrame(v.job.state)])
    case SeeDone => v.(phase := ExitDone, frames := v.frames + [StateFrame(v.job.state)])
    case Ping => v.(frames := v.frames + [PingFrame])
    case Hangup => v.(phase := ExitGone)
  }

  predicate ValidActs(v: Stream, acts: seq<Act>)
    requires v.sub < |v.job.subs|
    decreases |acts|
  {
    acts == [] || (CanAct(v, acts[0]) && ValidActs(Acted(v, acts[0]), acts[1..]))
  }

  function ActedAll(v: Stream, acts: seq<Act>): (w: Stream)
    requires v.sub < |v.job.subs| && ValidActs(v, acts)
    ensures w.sub == v.sub < |w.job.subs|
    decreases |acts|
  {
    if acts == [] then v else ActedAll(Acted(v, acts[0]), acts[1..])
  }

  /** The job output the browser has been sent. */
  function Output(frames: seq<Frame>): bytes {
    if frames == [] then []
    else
      var last := frames[|frames| - 1];
      Output(frames[..|frames| - 1]) + if last.SnapshotFrame? || last.ChunkFrame? then last.output else []
  }

  /** What was sent is the snapshot and the chunks taken, but for one chunk whose write failed. */
  ghost predicate Relayed(v: Stream)
    requires v.sub < |v.job.subs|
  {
    var s := v.job.subs[v.sub];
    match v.phase
    case Greeting => v.frames == [] && s.received == []
    case ExitGone => Output(v.frames) <= s.snapshot + Flat(s.received)
    case _ => Output(v.frames) == s.snapshot + Flat(s.received)
  }

  ghost predicate Faithful(v: Stream) {
    v.sub < |v.job.subs| && Good(v.job) && Relayed(v)
  }

  lemma OutputAppend(frames: seq<Frame>, f: Frame)
    ensures Output(frames + [f]) == Output(frames) + if f.SnapshotFrame? || f.ChunkFrame? then f.output else []
  {
    assert (frames + [f])[..|frames|] == frames;
  }

  lemma GreetingOutput(s: bytes, st: State)
    ensures Output((if s != [] then [SnapshotFrame(s)] else []) + [StateFrame(st)]) == s
  {
    OutputAppend(if s != [] then [SnapshotFrame(s)] else [], StateFrame(st));
    OutputAppend([], SnapshotFrame(s));
    assert [] + [SnapshotFrame(s)] == [SnapshotFrame(s)];
  }

  lemma OthersKeepReceived(j: Job, e: Event, i: nat)
    requires Possible(j, e) && i < |j.subs| && e != Receive(i)
    ensures Next(j, e).subs[i].received == j.subs[i].received && Next(j, e).subs[i].snapshot == j.subs[i].snapshot
  {
  }

  lemma RelayKeepsFaithful(v: Stream, written: bool)
    requires Faithful(v) && CanAct(v, Relay(written))
    ensures Faithful(Acted(v, Relay(written)))
  {
    var s := v.job.subs[v.sub];
    NextKeepsGood(v.job, Receive(v.sub));
    FlatAppend(s.received, s.queue[0]);
    OutputAppend(v.frames, ChunkFrame(s.queue[0]));
    assert s.snapshot + (Flat(s.received) + s.queue[0]) == (s.snapshot + Flat(s.received)) + s.queue[0];
  }

  lemma ActKeepsFaithful(v: Stream, a: Act)
    requires Faithful(v) && CanAct(v, a)
    ensures Faithful(Acted(v, a))
  {
    var s := v.job.subs[v.sub];
    match a
    case Elsewhere(e) =>
      NextKeepsGood(v.job, e);
      OthersKeepReceived(v.job, e, v.sub);
    case Greet => GreetingOutput(s.snapshot, v.job.state);
    case Relay(written) => RelayKeepsFaithful(v, written);
    case SeeClosed => OutputAppend(v.frames, StateFrame(v.job.state));
    case SeeDone => OutputAppend(v.frames, StateFrame(v.job.state));
    case Ping => OutputAppend(v.frames, PingFrame);
    case Hangup =>
  }

  lemma {:induction false} ActsKeepFaithful(v: Stream, acts: seq<Act>)
    requires Faithful(v) && ValidActs(v, acts)
    ensures Faithful(ActedAll(v, acts))
    decreases |acts|
  {
    if acts != [] {
      ActKeepsFaithful(v, acts[0]);
      ActsKeepFaithful(Acted(v, acts[0]), acts[1..]);
    }
  }

  lemma AttachIsFaithful(j: Job)
    requires Good(j)
    ensures Faithful(Attach(j))
  {
    NextKeepsGood(j, Subscribe);
  }

  /** Where the browser's view of the output starts: the tail retained when it subscribed. */
  function From(v: Stream): int
    requires v.sub < |v.job.subs|
  {
    var s := v.job.subs[v.sub];
    s.start - |s.snapshot|
  }

  /** However the stream ends or stands, the browser was sent a gapless stretch of the output, from the tail retained at subscription on. */
  lemma BrowserSeesGaplessOutput(j: Job, acts: seq<Act>)
    requires Good(j) && ValidActs(Attach(j), acts)
    ensures var v := ActedAll(Attach(j), acts);
            0 <= From(v) <= |v.job.total| && Output(v.frames) <= v.job.total[From(v)..]
  {
    AttachIsFaithful(j);
    ActsKeepFaithful(Attach(j), acts);
    var v := ActedAll(Attach(j), acts);
    var s := v.job.subs[v.sub];
    assert Seamless(v.job, s);
    assert v.job.total[From(v)..End(v.job, s)] <= v.job.total[From(v)..];
    assert s.snapshot + Flat(s.received) <= s.snapshot + Flat(s.received) + Flat(s.queue);
  }

  /** Where the output of a finished job ends for this browser: the finish, or its own subscription if that came later still. */
  function Final(v: Stream): nat
    requires v.sub < |v.job.subs| && v.job.finishedAt.Some?
  {
    var s := v.job.subs[v.sub];
    if v.job.finishedAt.value < s.start then s.start else v.job.finishedAt.value
  }

  /**
   What a stream that ended with the job leaves out, exactly: the chunks still
   queued when it left and, if its listener had been dropped as too slow, all
   output from the drop on. So by either exit it is complete if and only if no
   output is left in its queue and its channel was open until the final byte;
   the exit through the closed channel has drained the queue.
   */
  lemma ExitIsCompleteIffNothingLeft(j: Job, acts: seq<Act>)
    requires Good(j) && ValidActs(Attach(j), acts)
    requires var v := ActedAll(Attach(j), acts);
             (v.phase == ExitClosed || v.phase == ExitDone) && v.job.finishedAt.Some?
    ensures var v := ActedAll(Attach(j), acts);
            var s := v.job.subs[v.sub];
            && s.closing.Some?
            && 0 <= From(v) <= s.closing.value.at <= Final(v) <= |v.job.total|
            && Output(v.frames) + Flat(s.queue) + v.job.total[s.closing.value.at..Final(v)] == v.job.total[From(v)..Final(v)]
            && (Output(v.frames) == v.job.total[From(v)..Final(v)] <==>
                  Flat(s.queue) == [] && s.closing.value.at == Final(v))
  {
    AttachIsFaithful(j);
    ActsKeepFaithful(Attach(j), acts);
    var v := ActedAll(Attach(j), acts);
    var s := v.job.subs[v.sub];
    assert Seamless(v.job, s) && Settled(v.job, s);
    var t := v.job.total;
    assert t[From(v)..Final(v)] == t[From(v)..s.closing.value.at] + t[s.closing.value.at..Final(v)];
  }

  lemma {:induction false} ExitClosedIsDrained(v: Stream, acts: seq<Act>)
    requires v.sub < |v.job.subs| && ValidActs(v, acts)
    requires v.phase == ExitClosed ==> v.job.subs[v.sub].queue == [] && v.job.subs[v.sub].closing.Some?
    ensures var w := ActedAll(v, acts); w.phase == ExitClosed ==> w.job.subs[w.sub].queue == [] && w.job.subs[w.sub].closing.Some?
    decreases |acts|
  {
    if acts != [] {
      ExitClosedIsDrained(Acted(v, acts[0]), acts[1..]);
    }
  }

  /** A stream that leaves through a channel the finishing job closed has relayed everything up to the job's final byte. */
  lemma ClosedByFinishIsComplete(j: Job, acts: seq<Act>)
    requires Good(j) && ValidActs(Attach(j), acts)
    requires var v := ActedAll(Attach(j), acts);
             && v.phase == ExitClosed
             && v.job.subs[v.sub].closing.Some? && v.job.subs[v.sub].closing.value.why == JobFinished
    ensures var v := ActedAll(Attach(j), acts);
            && v.job.finishedAt.Some?
            && 0 <= From(v) <= v.job.finishedAt.value <= |v.job.total|
            && Output(v.frames) == v.job.total[From(v)..v.job.finishedAt.value]
  {
    AttachIsFaithful(j);
    ActsKeepFaithful(Attach(j), acts);
    ExitClosedIsDrained(Attach(j), acts);
    var v := ActedAll(Attach(j), acts);
    assert Settled(v.job, v.job.subs[v.sub]) && Seamless(v.job, v.job.subs[v.sub]);
    ExitIsCompleteIffNothingLeft(j, acts);
  }

  // ---- what the browser is told of the job ----

  /** What the job's function returned while the stream ran. */
  function ReturnedIn(acts: seq<Act>): seq<Result> {
    if acts == [] then []
    else ReturnedBy(acts[0]) + ReturnedIn(acts[1..])
  }

  function ReturnedBy(a: Act): seq<Result> {
    if a.Elsewhere? && a.e.Finish? then [a.e.r] else []
  }

  lemma ActTellsOutcome(v: Stream, a: Act, returned: seq<Result>)
    requires v.sub < |v.job.subs| && CanAct(v, a) && OutcomeOf(v.job.state, returned)
    ensures OutcomeOf(Acted(v, a).job.state, returned + ReturnedBy(a))
  {
    assert ReturnedBy(a) == [] ==> returned + ReturnedBy(a) == returned;
  }

  lemma {:induction false} ActsTellOutcome(v: Stream, acts: seq<Act>, returned: seq<Result>)
    requires v.sub < |v.job.subs| && ValidActs(v, acts) && OutcomeOf(v.job.state, returned)
    ensures OutcomeOf(ActedAll(v, acts).job.state, returned + ReturnedIn(acts))
    decreases |acts|
  {
    if acts == [] {
      assert returned + [] == returned;
    } else {
      var now := ReturnedBy(acts[0]);
      ActTellsOutcome(v, acts[0], returned);
      ActsTellOutcome(Acted(v, acts[0]), acts[1..], returned + now);
      assert (returned + now) + ReturnedIn(acts[1..]) == returned + ReturnedIn(acts);
    }
  }

  /** A stream opens with the snapshot, if there is one, and a state. */
  predicate Opens(frames: seq<Frame>, snapshot: bytes) {
    if snapshot == [] then |frames| >= 1 && frames[0].StateFrame?
    else |frames| >= 2 && frames[0] == SnapshotFrame(snapshot) && frames[1].StateFrame?
  }

  /** The state it opens with is the job's, or was when the job still ran. */
  predicate OpensWithState(v: Stream)
    requires v.sub < |v.job.subs| && Opens(v.frames, v.job.subs[v.sub].snapshot)
  {
    var s := v.job.subs[v.sub];
    var told := v.frames[if s.snapshot == [] then 0 else 1].state;
    || told == v.job.state
    || (told == Running && !(s.closing.Some? && s.closing.value.why == TooLate))
  }

  /** It ends with the job's state, which is Running only if its channel was closed for being slow. */
  predicate EndsWithState(v: Stream)
    requires v.sub < |v.job.subs|
  {
    && v.frames != [] && v.frames[|v.frames| - 1].StateFrame?
    && var told := v.frames[|v.frames| - 1].state;
    || (told == v.job.state && told != Running)
    || (told == Running && v.phase == ExitClosed && v.job.subs[v.sub].closing.Some? && v.job.subs[v.sub].closing.value.why == Slow)
  }

  ghost predicate Tells(v: Stream) {
    && v.sub < |v.job.subs|
    && (v.job.done ==> v.job.state != Running)
    && (v.job.subs[v.sub].closing.Some? ==> v.job.subs[v.sub].closing.value.why != Left)
    && (v.frames == [] ==> v.phase == Greeting || v.phase == ExitGone)
    && (v.frames != [] ==> Opens(v.frames, v.job.subs[v.sub].snapshot) && OpensWithState(v))
    && (v.phase == ExitClosed || v.phase == ExitDone ==> EndsWithState(v))
    && (v.phase == ExitDone ==> v.job.state != Running)
  }

  /** What happens elsewhere does not make this listener leave, nor close its channel again. */
  lemma OthersCloseOnce(j: Job, e: Event, i: nat)
    requires Possible(j, e) && i < |j.subs| && e != Unsubscribe(i)
    ensures i < |Next(j, e).subs|
    ensures var c, c' := j.subs[i].closing, Next(j, e).subs[i].closing;
            if c.Some? then c' == c else c'.Some? ==> c'.value.why != Left
    ensures j.state != Running ==> Next(j, e).state == j.state
    ensures Next(j, e).done && !j.done ==> j.state != Running
  {
  }

  lemma ElsewhereKeepsTelling(v: Stream, e: Event)
    requires v.sub < |v.job.subs| && Settled(v.job, v.job.subs[v.sub]) && (v.job.state == Running <==> v.job.finishedAt.None?)
    requires Tells(v) && CanAct(v, Elsewhere(e))
    ensures Tells(Acted(v, Elsewhere(e)))
  {
    OthersCloseOnce(v.job, e, v.sub);
    OthersKeepReceived(v.job, e, v.sub);
  }

  lemma ActKeepsTelling(v: Stream, a: Act)
    requires v.sub < |v.job.subs| && Settled(v.job, v.job.subs[v.sub]) && (v.job.state == Running <==> v.job.finishedAt.None?)
    requires Tells(v) && CanAct(v, a)
    ensures Tells(Acted(v, a))
  {
    if a.Elsewhere? {
      ElsewhereKeepsTelling(v, a.e);
    }
  }

  lemma {:induction false} ActsKeepTelling(v: Stream, acts: seq<Act>)
    requires Faithful(v) && Tells(v) && ValidActs(v, acts)
    ensures Tells(ActedAll(v, acts))
    decreases |acts|
  {
    if acts != [] {
      ActKeepsFaithful(v, acts[0]);
      assert Settled(v.job, v.job.subs[v.sub]);
      ActKeepsTelling(v, acts[0]);
      ActsKeepTelling(Acted(v, acts[0]), acts[1..]);
    }
  }

  /** The last frame is the state that tells what the job's function returned, or Running to a listener dropped as too slow. */
  ghost predicate LastTells(v: Stream, returned: seq<Result>)
    requires v.sub < |v.job.subs|
  {
    && v.frames != [] && v.frames[|v.frames| - 1].StateFrame?
    && var told := v.frames[|v.frames| - 1].state;
    || (|returned| == 1 && StateTells(told, returned[0]))
    || (told == Running && v.phase == ExitClosed
        && v.job.subs[v.sub].closing.Some? && v.job.subs[v.sub].closing.value.why == Slow)
  }

  lemma TellingEnds(v: Stream, returned: seq<Result>)
    requires Tells(v) && OutcomeOf(v.job.state, returned)
    ensures v.frames != [] ==> Opens(v.frames, v.job.subs[v.sub].snapshot) && OpensWithState(v)
    ensures v.phase == ExitClosed || v.phase == ExitDone ==> LastTells(v, returned)
  {
  }

  /**
   Whatever else a stream sent, it opened with the snapshot and a state, and if
   it ended with the job, through the closed channel or the done signal, its
   last frame is the state told by the one finish of the whole run; only a
   listener dropped as too slow can be left with Running.
   */
  lemma StreamEndsWithOutcome(cap: nat, es: seq<Event>, acts: seq<Act>)
    requires ValidRun(NewJob(cap), es) && ValidActs(Attach(After(NewJob(cap), es)), acts)
    ensures var v := ActedAll(Attach(After(NewJob(cap), es)), acts);
            var returned := Returned(es) + ReturnedIn(acts);
            && OutcomeOf(v.job.state, returned)
            && (v.frames != [] ==> Opens(v.frames, v.job.subs[v.sub].snapshot) && OpensWithState(v))
            && (v.phase == ExitClosed || v.phase == ExitDone ==> LastTells(v, returned))
  {
    var j := After(NewJob(cap), es);
    RunTellsOutcome(NewJob(cap), es);
    ActsTellOutcome(Attach(j), acts, Returned(es));
    AttachTells(cap, es);
    ActsKeepTelling(Attach(j), acts);
    TellingEnds(ActedAll(Attach(j), acts), Returned(es) + ReturnedIn(acts));
  }

  lemma AttachTells(cap: nat, es: seq<Event>)
    requires ValidRun(NewJob(cap), es)
    ensures Faithful(Attach(After(NewJob(cap), es))) && Tells(Attach(After(NewJob(cap), es)))
  {
    RunKeepsGood(NewJob(cap), es);
    DoneFollowsFinish(NewJob(cap), es);
    AttachIsFaithful(After(NewJob(cap), es));
  }

  /**
   The done signal can win over a queued chunk, from any point of any stream
   that relays a running job: the browser is told how the job ended without ever
   being sent the job's last output `p`.
   */
  lemma DoneCanOvertakeOutput(v: Stream, p: bytes, r: Result) returns (acts: seq<Act>)
    requires v.sub < |v.job.subs| && v.phase == Relaying && v.job.state == Running && !v.job.done
    ensures ValidActs(v, acts)
    ensures var w := ActedAll(v, acts);
            && w.phase == ExitDone
            && w.job.total == v.job.total + p
            && w.job.finishedAt == Some(|v.job.total + p|)
            && w.frames == v.frames + [StateFrame(Outcome(r))]
            && Output(w.frames) == Output(v.frames)
  {
    var v1 := Acted(v, Elsewhere(Write(p)));
    var v2 := Acted(v1, Elsewhere(Finish(r)));
    var v3 := Acted(v2, Elsewhere(CloseDone));
    OutputAppend(v.frames, StateFrame(Outcome(r)));
    acts := ExtendFront(v3, SeeDone, []);
    acts := ExtendFront(v2, Elsewhere(CloseDone), acts);
    acts := ExtendFront(v1, Elsewhere(Finish(r)), acts);
    acts := ExtendFront(v, Elsewhere(Write(p)), acts);
  }

  lemma ExtendFront(v: Stream, a: Act, rest: seq<Act>) returns (acts: seq<Act>)
    requires v.sub < |v.job.subs| && CanAct(v, a) && ValidActs(Acted(v, a), rest)
    ensures ValidActs(v, acts) && ActedAll(v, acts) == ActedAll(Acted(v, a), rest)
  {
    acts := [a] + rest;
    assert acts[1..] == rest;
  }
}
