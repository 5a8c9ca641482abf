/**
 A job's output and its subscribers (internal/jobs/jobs.go), each mutex section
 one event. The package promises that a late subscriber sees a snapshot and
 then a seamless continuation; here that is a statement about every run.
 */
module JobMachine {
  import opened Prelude
  import opened TailBuffer

  const LISTENER_BUFFER: nat := 32

  datatype State = Running | Succeeded | Failed(msg: string) | Cancelled

  /** What the job's function returned. */
  datatype Result = NoError | ContextCanceled | Error(msg: string)

  function Outcome(r: Result): State {
    match r
    case ContextCanceled => Cancelled
    case Error(msg) => Failed(msg)
    case NoError => Succeeded
  }

  datatype Reason = Slow | Left | JobFinished | TooLate

  /** Why and at which length of the total output a channel was closed. */
  datatype Closing = Closing(why: Reason, at: nat)

  datatype Sub = Sub(
    snapshot: bytes,
    start: nat,               // length of the total output at subscription
    received: seq<bytes>,     // chunks the reader has taken
    queue: seq<bytes>,        // chunks waiting in the channel
    closing: Option<Closing>
  )

  datatype Job = Job(
    cap: nat,
    total: bytes,             // everything ever written
    state: State,
    subs: seq<Sub>,           // in order of subscription
    finishedAt: Option<nat>,
    done: bool
  )

  datatype Event =
    | Write(p: bytes)
    | Subscribe
    | Receive(i: nat)
    | Unsubscribe(i: nat)
    | Finish(r: Result)
    | CloseDone

  predicate Possible(j: Job, e: Event) {
    match e
    case Receive(i) => i < |j.subs| && j.subs[i].queue != []
    case Unsubscribe(i) => i < |j.subs|
    case Finish(_) => j.state == Running
    case CloseDone => j.state != Running && !j.done
    case _ => true
  }

  function CloseAt(s: Sub, why: Reason, at: nat): Sub {
    if s.closing.Some? then s else s.(closing := Some(Closing(why, at)))
  }

  /** A chunk offered to one listener without blocking: queued, or the listener dropped. */
  function Offer(s: Sub, p: bytes, at: nat): Sub {
    if s.closing.Some? then s
    else if |s.queue| < LISTENER_BUFFER then s.(queue := s.queue + [p])
    else CloseAt(s, Slow, at)
  }

  function Next(j: Job, e: Event): Job
    requires Possible(j, e)
  {
    match e
    case Write(p) =>
      j.(total := j.total + p,
         subs := seq(|j.subs|, i requires 0 <= i < |j.subs| => Offer(j.subs[i], p, |j.total|)))
    case Subscribe =>
      j.(subs := j.subs + [Sub(Tail(j.total, j.cap), |j.total|, [], [],
                               if j.state == Running then None else Some(Closing(TooLate, |j.total|)))])
    case Receive(i) =>
      var s := j.subs[i];
      j.(subs := j.subs[i := s.(received := s.received + [s.queue[0]], queue := s.queue[1..])])
    case Unsubscribe(i) => j.(subs := j.subs[i := CloseAt(j.subs[i], Left, |j.total|)])
    case Finish(r) =>
      j.(state := Outcome(r), finishedAt := Some(|j.total|),
         subs := seq(|j.subs|, i requires 0 <= i < |j.subs| => CloseAt(j.subs[i], JobFinished, |j.total|)))
    case CloseDone => j.(done := true)
  }

  predicate ValidRun(j: Job, es: seq<Event>)
    decreases |es|
  {
    es == [] || (Possible(j, es[0]) && ValidRun(Next(j, es[0]), es[1..]))
  }

  function After(j: Job, es: seq<Event>): Job
    requires ValidRun(j, es)
    decreases |es|
  {
    if es == [] then j else After(Next(j, es[0]), es[1..])
  }

  function NewJob(cap: nat): Job {
    Job(cap, [], Running, [], None, false)
  }

  // ---- seamless continuation ----

  /** Where the stretch a subscriber gets to see ends. */
  function End(j: Job, s: Sub): nat {
    if s.closing.Some? then s.closing.value.at else |j.total|
  }

  /** Snapshot, taken chunks and waiting chunks are one contiguous stretch of the total output, starting with its tail as of subscription. */
  ghost predicate Seamless(j: Job, s: Sub) {
    && s.start <= End(j, s) <= |j.total|
    && s.snapshot == Tail(j.total[..s.start], j.cap)
    && s.snapshot + Flat(s.received) + Flat(s.queue) == j.total[s.start - |s.snapshot|..End(j, s)]
  }

  ghost predicate Settled(j: Job, s: Sub) {
    && |s.queue| <= LISTENER_BUFFER
    && (s.closing.None? ==> j.state == Running)
    && (s.closing.Some? && s.closing.value.why == JobFinished ==> j.finishedAt == Some(s.closing.value.at))
    && (s.closing.Some? && s.closing.value.why == TooLate ==>
          s.closing.value.at == s.start && s.queue == [] && j.finishedAt.Some? && j.finishedAt.value <= s.start)
    && (s.closing.Some? && s.closing.value.why != TooLate && j.finishedAt.Some? ==> s.closing.value.at <= j.finishedAt.value)
  }

  ghost predicate Good(j: Job) {
    && (j.state == Running <==> j.finishedAt.None?)
    && (j.finishedAt.Some? ==> j.finishedAt.value <= |j.total|)
    && forall i :: 0 <= i < |j.subs| ==> Seamless(j, j.subs[i]) && Settled(j, j.subs[i])
  }

  lemma QueueingKeepsSeamless(j: Job, s: Sub, p: bytes)
    requires Seamless(j, s) && s.closing.None?
    ensures Seamless(j.(total := j.total + p), s.(queue := s.queue + [p]))
  {
    var t, from := j.total + p, s.start - |s.snapshot|;
    assert t[..s.start] == j.total[..s.start];
    assert t[from..|t|] == j.total[from..|j.total|] + p;
    FlatAppend(s.queue, p);
    var shown := s.snapshot + Flat(s.received);
    assert shown + (Flat(s.queue) + p) == (shown + Flat(s.queue)) + p;
  }

  /** Output written after a channel was closed is none of its business. */
  lemma ClosedStaysSeamless(j: Job, s: Sub, p: bytes)
    requires Seamless(j, s) && s.closing.Some?
    ensures Seamless(j.(total := j.total + p), s)
  {
    var t, from := j.total + p, s.start - |s.snapshot|;
    assert t[..s.start] == j.total[..s.start];
    assert t[from..End(j, s)] == j.total[from..End(j, s)];
  }

  lemma OfferKeepsSeamless(j: Job, s: Sub, p: bytes)
    requires Seamless(j, s)
    ensures Seamless(j.(total := j.total + p), Offer(s, p, |j.total|))
  {
    if s.closing.None? && |s.queue| < LISTENER_BUFFER {
      QueueingKeepsSeamless(j, s, p);
    } else {
      ClosedStaysSeamless(j, CloseAt(s, Slow, |j.total|), p);
    }
  }

  lemma ReceiveKeepsSeamless(j: Job, s: Sub)
    requires Seamless(j, s) && s.queue != []
    ensures Seamless(j, s.(received := s.received + [s.queue[0]], queue := s.queue[1..]))
  {
    FlatAppend(s.received, s.queue[0]);
    var shown, rest := s.snapshot + Flat(s.received), Flat(s.queue[1..]);
    assert Flat(s.queue) == s.queue[0] + rest;
    assert s.snapshot + (Flat(s.received) + s.queue[0]) == shown + s.queue[0];
    assert (shown + s.queue[0]) + rest == shown + (s.queue[0] + rest);
  }

  lemma ClosingKeepsSeamless(j: Job, k: Job, s: Sub, why: Reason)
    requires Seamless(j, s) && k.total == j.total && k.cap == j.cap
    ensures Seamless(k, s) && Seamless(k, CloseAt(s, why, |j.total|))
  {
  }

  lemma NewSubSeamless(j: Job, s: Sub)
    requires s.snapshot == Tail(j.total, j.cap) && s.start == |j.total| && s.received == s.queue == []
    requires s.closing.Some? ==> s.closing.value.at == |j.total|
    ensures Seamless(j, s)
  {
    assert j.total[..|j.total|] == j.total;
    assert Flat(s.received) == Flat(s.queue) == [];
  }

  lemma NextKeepsSeamless(j: Job, e: Event, i: nat)
    requires i < |j.subs| && Seamless(j, j.subs[i]) && Possible(j, e)
    ensures Seamless(Next(j, e), Next(j, e).subs[i])
  {
    var s, k := j.subs[i], Next(j, e);
    match e
    case Write(p) => OfferKeepsSeamless(j, s, p);
    case Receive(n) =>
      ClosingKeepsSeamless(j, k, s, Left);
      if i == n {
        ReceiveKeepsSeamless(j, s);
        ClosingKeepsSeamless(j, k, s.(received := s.received + [s.queue[0]], queue := s.queue[1..]), Left);
      }
    case Finish(_) => ClosingKeepsSeamless(j, k, s, JobFinished);
    case _ => ClosingKeepsSeamless(j, k, s, Left);
  }

  lemma NextKeepsSettled(j: Job, e: Event, s: Sub, t: Sub)
    requires Settled(j, s) && s.start <= End(j, s) <= |j.total|
    requires j.state == Running <==> j.finishedAt.None?
    requires Possible(j, e)
    requires match e
             case Write(p) => t == Offer(s, p, |j.total|)
             case Receive(_) => t == s || (|t.queue| < |s.queue| && t == s.(received := t.received, queue := t.queue))
             case Unsubscribe(_) => t == s || t == CloseAt(s, Left, |j.total|)
             case Finish(_) => t == CloseAt(s, JobFinished, |j.total|)
             case _ => t == s
    ensures Settled(Next(j, e), t)
  {
  }

  lemma NewSubSettled(j: Job)
    requires (j.state == Running <==> j.finishedAt.None?) && (j.finishedAt.Some? ==> j.finishedAt.value <= |j.total|)
    ensures Settled(Next(j, Subscribe), Next(j, Subscribe).subs[|j.subs|])
  {
  }

  lemma NextKeepsSub(j: Job, e: Event, i: nat)
    requires Good(j) && Possible(j, e) && i < |Next(j, e).subs|
    ensures Seamless(Next(j, e), Next(j, e).subs[i]) && Settled(Next(j, e), Next(j, e).subs[i])
  {
    var j' := Next(j, e);
    if i < |j.subs| {
      assert Seamless(j, j.subs[i]) && Settled(j, j.subs[i]);
      NextKeepsSeamless(j, e, i);
      NextKeepsSettled(j, e, j.subs[i], j'.subs[i]);
    } else {
      NewSubSeamless(j', j'.subs[i]);
      NewSubSettled(j);
    }
  }

  lemma NextKeepsGood(j: Job, e: Event)
    requires Good(j) && Possible(j, e)
    ensures Good(Next(j, e))
  {
    forall i | 0 <= i < |Next(j, e).subs|
      ensures Seamless(Next(j, e), Next(j, e).subs[i]) && Settled(Next(j, e), Next(j, e).subs[i])
    {
      NextKeepsSub(j, e, i);
    }
  }

  lemma {:induction false} RunKeepsGood(j: Job, es: seq<Event>)
    requires Good(j) && ValidRun(j, es)
    ensures Good(After(j, es))
    decreases |es|
  {
    if es != [] {
      NextKeepsGood(j, es[0]);
      RunKeepsGood(Next(j, es[0]), es[1..]);
    }
  }

  /** Everything a subscriber was shown, has taken or has waiting. */
  function Shown(s: Sub): bytes {
    s.snapshot + Flat(s.received) + Flat(s.queue)
  }

  /** The first byte of the output retained when the subscriber came. */
  function Retained(s: Sub, cap: nat): nat {
    if s.start < cap then 0 else s.start - cap
  }

  /** `s` was shown the output of `j` from what was retained at its subscription up to position `end`. */
  ghost predicate ShownUpTo(j: Job, s: Sub, cap: nat, end: nat) {
    Retained(s, cap) <= end <= |j.total| && Shown(s) == j.total[Retained(s, cap)..end]
  }

  lemma SeamlessShows(j: Job, s: Sub)
    requires Seamless(j, s)
    ensures ShownUpTo(j, s, j.cap, End(j, s))
  {
    assert s.start - |s.snapshot| == Retained(s, j.cap);
  }

  /**
   In every run, what subscriber `i` was shown, has taken and has waiting is one
   gapless stretch of the job's output from its retained tail on; the stretch
   reaches the current end while its channel is open, the final end if the
   job's finish closed it, and otherwise the point where it was dropped or left;
   and at most 32 chunks ever wait.
   */
  lemma SubscriberSeesSeamlessOutput(cap: nat, es: seq<Event>, i: nat)
    requires ValidRun(NewJob(cap), es) && i < |After(NewJob(cap), es).subs|
    ensures var j := After(NewJob(cap), es);
            var s := j.subs[i];
            && |s.queue| <= 32
            && match s.closing
               case None => ShownUpTo(j, s, cap, |j.total|)
               case Some(c) =>
                 && ShownUpTo(j, s, cap, c.at)
                 && (c.why == JobFinished ==> j.finishedAt == Some(c.at))
  {
    var j := After(NewJob(cap), es);
    RunKeepsGood(NewJob(cap), es);
    RunKeepsCap(NewJob(cap), es);
    assert Seamless(j, j.subs[i]) && Settled(j, j.subs[i]);
    SeamlessShows(j, j.subs[i]);
  }

  /**
   The snapshot is the full output so far exactly when that output still fits
   the tail buffer; otherwise its beginning is gone.
   */
  lemma SnapshotIsWholeIffItFits(cap: nat, es: seq<Event>, i: nat)
    requires ValidRun(NewJob(cap), es) && i < |After(NewJob(cap), es).subs|
    ensures var j := After(NewJob(cap), es);
            var s := j.subs[i];
            s.start <= |j.total| && (s.snapshot == j.total[..s.start] <==> s.start <= cap)
  {
    var j := After(NewJob(cap), es);
    RunKeepsGood(NewJob(cap), es);
    RunKeepsCap(NewJob(cap), es);
    assert Seamless(j, j.subs[i]);
  }

  lemma {:induction false} RunKeepsCap(j: Job, es: seq<Event>)
    requires ValidRun(j, es)
    ensures After(j, es).cap == j.cap
    decreases |es|
  {
    if es != [] { RunKeepsCap(Next(j, es[0]), es[1..]); }
  }

  // ---- the outcome ----

  /** The state tells what the job's function returned. */
  ghost predicate StateTells(st: State, r: Result) {
    && (st == Succeeded <==> r == NoError)
    && (st == Cancelled <==> r == ContextCanceled)
    && (forall msg :: st == Failed(msg) <==> r == Error(msg))
    && st != Running
  }

  /** What the finishes of a run returned. */
  function Returned(es: seq<Event>): seq<Result> {
    if es == [] then []
    else (if es[0].Finish? then [es[0].r] else []) + Returned(es[1..])
  }

  /** A job's state is that of its one finish, and Running without one. */
  ghost predicate OutcomeOf(st: State, returned: seq<Result>) {
    |returned| <= 1 && if returned == [] then st == Running else StateTells(st, returned[0])
  }

  lemma {:induction false} FinishedStays(j: Job, es: seq<Event>)
    requires ValidRun(j, es) && j.state != Running
    ensures After(j, es).state == j.state && Returned(es) == []
    decreases |es|
  {
    if es != [] {
      FinishedStays(Next(j, es[0]), es[1..]);
    }
  }

  /** A job finishes at most once in any run, with the state that tells what its function returned. */
  lemma {:induction false} RunTellsOutcome(j: Job, es: seq<Event>)
    requires ValidRun(j, es) && j.state == Running
    ensures OutcomeOf(After(j, es).state, Returned(es))
    decreases |es|
  {
    if es != [] {
      if es[0].Finish? {
        FinishedStays(Next(j, es[0]), es[1..]);
        assert Returned(es) == [es[0].r];
      } else {
        RunTellsOutcome(Next(j, es[0]), es[1..]);
        assert Returned(es) == Returned(es[1..]);
      }
    }
  }

  /** In any run the done signal comes after the finish. */
  lemma {:induction false} DoneFollowsFinish(j: Job, es: seq<Event>)
    requires ValidRun(j, es) && (j.done ==> j.state != Running)
    ensures After(j, es).done ==> After(j, es).state != Running
    ensures es != [] && es[|es| - 1] == CloseDone ==> After(j, es).done
    decreases |es|
  {
    if es != [] {
      if |es| > 1 { assert es[1..][|es| - 2] == es[|es| - 1]; }
      DoneFollowsFinish(Next(j, es[0]), es[1..]);
    }
  }

  // ---- closing is final ----

  /** A closed subscription stays closed for the same reason and gets no further chunk; a finished job stays as it finished. */
  ghost predicate Continues(j: Job, k: Job) {
    && |j.subs| <= |k.subs|
    && j.total <= k.total
    && (j.state != Running ==> k.state == j.state && k.finishedAt == j.finishedAt)
    && forall i :: 0 <= i < |j.subs| ==> SubContinues(j.subs[i], k.subs[i])
  }

  ghost predicate SubContinues(s: Sub, t: Sub) {
    && t.snapshot == s.snapshot && t.start == s.start
    && (s.closing.Some? ==> t.closing == s.closing && t.received + t.queue == s.received + s.queue)
    && s.received + s.queue <= t.received + t.queue
  }

  lemma NextContinues(j: Job, e: Event)
    requires Possible(j, e)
    ensures Continues(j, Next(j, e))
  {
    var k := Next(j, e);
    forall i | 0 <= i < |j.subs| ensures SubContinues(j.subs[i], k.subs[i]) {
      var s := j.subs[i];
      if e.Write? && s.closing.None? && |s.queue| < LISTENER_BUFFER {
        assert s.received + (s.queue + [e.p]) == (s.received + s.queue) + [e.p];
      } else if e.Receive? && e.i == i {
        assert (s.received + [s.queue[0]]) + s.queue[1..] == s.received + s.queue;
      }
    }
  }

  /** Between any two points of any run: no channel reopens, none is closed twice or sent to once closed, none loses or reorders a chunk. */
  lemma {:induction false} RunContinues(j: Job, es: seq<Event>)
    requires ValidRun(j, es)
    ensures Continues(j, After(j, es))
    decreases |es|
  {
    if es != [] {
      var m, k := Next(j, es[0]), After(j, es);
      NextContinues(j, es[0]);
      RunContinues(m, es[1..]);
      forall i | 0 <= i < |j.subs| ensures SubContinues(j.subs[i], k.subs[i]) {
        assert SubContinues(j.subs[i], m.subs[i]) && SubContinues(m.subs[i], k.subs[i]);
      }
    }
  }

  /** A listener is dropped exactly when a write finds its queue full. */
  lemma DroppedIffQueueFull(j: Job, e: Event, i: nat)
    requires Good(j) && Possible(j, e) && i < |j.subs| && j.subs[i].closing.None?
    ensures var s := Next(j, e).subs[i];
            s.closing == Some(Closing(Slow, |j.total|)) <==> e.Write? && |j.subs[i].queue| == 32
  {
    assert Settled(j, j.subs[i]);
  }
}
