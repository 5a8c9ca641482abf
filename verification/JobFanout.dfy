/**
 The job object itself: channels, the listener map and the loops over it,
 updated in place and proved to take exactly the steps of JobMachine. Sending
 on a closed channel or closing one twice would panic; both are preconditions
 of Channel here, so their absence is proved along the way.
 */
module JobFanout {
  import opened Prelude
  import opened TailBuffer
  import M = JobMachine

  /** A buffered Go channel of chunks. */
  class Channel {
    const capacity: nat
    var queue: seq<bytes>
    var closed: bool

    constructor (capacity: nat)
      ensures this.capacity == capacity && queue == [] && !closed
    {
      this.capacity := capacity;
      queue, closed := [], false;
    }

    /** The non-blocking send of a select with a default branch. */
    method TrySend(chunk: bytes) returns (sent: bool)
      requires !closed
      modifies this`queue
      ensures sent == (|old(queue)| < capacity)
      ensures queue == if sent then old(queue) + [chunk] else old(queue)
    {
      sent := |queue| < capacity;
      if sent {
        queue := queue + [chunk];
      }
    }

    method Close()
      requires !closed
      modifies this`closed
      ensures closed
    {
      closed := true;
    }

    /** A receive that does not block: the next chunk, or `None` once closed and drained. */
    method Receive() returns (chunk: Option<bytes>)
      requires queue != [] || closed
      modifies this`queue
      ensures chunk == if old(queue) != [] then Some(old(queue)[0]) else None
      ensures queue == if old(queue) != [] then old(queue)[1..] else []
    {
      if queue == [] {
        return None;
      }
      chunk := Some(queue[0]);
      queue := queue[1..];
    }
  }

  /** What a write does to a channel: a closed one gets nothing, one with 32 chunks waiting is closed, any other gets the chunk. */
  predicate Offered(queue: seq<bytes>, closed: bool, p: bytes, queue': seq<bytes>, closed': bool) {
    if closed then queue' == queue && closed'
    else if |queue| < 32 then queue' == queue + [p] && !closed'
    else queue' == queue && closed'
  }

  class Job {
    const output: RingBuffer
    var state: M.State
    var listeners: map<nat, Channel>
    var nextLis: nat
    var done: bool
    ghost var model: M.Job          // what happened so far, as JobMachine tells it
    ghost var chans: seq<Channel>   // every channel handed out, in order

    /** Channel `i` holds what the machine says and is registered exactly while open. */
    ghost predicate Tracks(i: nat, s: M.Sub)
      requires i < |chans|
      reads this, chans
    {
      && chans[i].queue == s.queue
      && chans[i].closed == s.closing.Some?
      && (s.closing.None? ==> chans[i].capacity == M.LISTENER_BUFFER)
      && (i in listeners <==> s.closing.None?)
      && (i in listeners ==> listeners[i] == chans[i])
    }

    ghost predicate Distinct()
      reads this
    {
      forall i, k :: 0 <= i < k < |chans| ==> chans[i] != chans[k]
    }

    /** The listeners in `pending` are as in `before`, all other subscriptions as in `after`. */
    ghost predicate Tracking(before: seq<M.Sub>, after: seq<M.Sub>, pending: set<nat>)
      reads this, chans
    {
      && |chans| == |before| == |after|
      && Distinct()
      && (forall id :: id in listeners ==> id < |chans|)
      && (forall i :: 0 <= i < |chans| ==> Tracks(i, if i in pending then before[i] else after[i]))
    }

    ghost predicate Valid()
      reads this, output, output.buf, output.buf.data, chans
    {
      && output.Valid() && output.cap == model.cap
      && output.Contents() == Tail(model.total, model.cap)
      && state == model.state && done == model.done
      && Tracking(model.subs, model.subs, {})
      && (state == M.Running ==> nextLis == |chans|)
    }

    constructor (cap: nat)
      ensures Valid() && model == M.NewJob(cap) && fresh(output) && fresh(output.buf) && fresh(output.buf.data)
    {
      output := new RingBuffer(cap);
      state, listeners, nextLis, done := M.Running, map[], 0, false;
      model, chans := M.NewJob(cap), [];
      new;
      assert output.Contents() == Tail(model.total, model.cap);
      assert Tracking(model.subs, model.subs, {});
    }

    /** A new channel joins the listeners, or is closed at once if the job has finished. */
    method Register() returns (ch: Channel, handle: Option<nat>)
      requires Valid()
      modifies this`listeners, this`nextLis
      ensures fresh(ch) && ch.queue == [] && ch.closed == (state != M.Running)
      ensures handle == if state == M.Running then Some(|chans|) else None
      ensures state == M.Running ==> ch.capacity == M.LISTENER_BUFFER && nextLis == |chans| + 1
      ensures listeners == if state == M.Running then old(listeners)[|chans| := ch] else old(listeners)
    {
      if state != M.Running {
        ch := new Channel(0);
        ch.Close();
        handle := None;
      } else {
        ch := new Channel(M.LISTENER_BUFFER);
        handle := Some(nextLis);
        listeners := listeners[nextLis := ch];
        nextLis := nextLis + 1;
      }
    }

    /** `handle` is what the returned unsubscribe closure captured; a finished job hands out a closed channel and a no-op. */
    method Subscribe() returns (snapshot: bytes, ch: Channel, handle: Option<nat>)
      requires Valid()
      modifies this
      ensures Valid() && model == M.Next(old(model), M.Subscribe)
      ensures fresh(ch) && chans == old(chans) + [ch]
      ensures ch.queue == [] && (ch.closed <==> state != M.Running)
      ensures snapshot == model.subs[|old(chans)|].snapshot
      ensures handle == if state == M.Running then Some(|old(chans)|) else None
    {
      snapshot := output.Snapshot();
      ch, handle := Register();
      chans := chans + [ch];
      model := M.Next(model, M.Subscribe);
      forall i | 0 <= i < |chans| - 1 ensures Tracks(i, model.subs[i]) {
        assert old(Tracks(i, model.subs[i]));
      }
    }

    /** Closes the one listener, if it is still registered; the buffer is not touched. */
    method CloseOne(handle: nat, ghost before: seq<M.Sub>, ghost after: seq<M.Sub>, ghost at: nat)
      requires output.Valid() && Tracking(before, before, {}) && handle < |chans|
      requires after == before[handle := M.CloseAt(before[handle], M.Left, at)]
      modifies this`listeners, chans
      ensures output.Valid() && output.Contents() == old(output.Contents())
      ensures Tracking(after, after, {})
      ensures chans[handle].closed && handle !in listeners
      ensures forall i :: 0 <= i < |chans| ==> chans[i].queue == old(chans[i].queue) && (i != handle ==> chans[i].closed == old(chans[i].closed))
    {
      assert Tracks(handle, before[handle]);
      if handle in listeners {
        Drop(handle, before[handle], M.Left, at);
      }
      forall i | 0 <= i < |chans|
        ensures Tracks(i, after[i])
        ensures chans[i].queue == old(chans[i].queue) && (i != handle ==> chans[i].closed == old(chans[i].closed))
      {
        assert old(Tracks(i, before[i]));
      }
    }

    method Unsubscribe(handle: nat)
      requires Valid() && handle < |chans|
      modifies this, chans
      ensures Valid() && model == M.Next(old(model), M.Unsubscribe(handle)) && chans == old(chans)
      ensures chans[handle].closed && handle !in listeners
      ensures forall i :: 0 <= i < |chans| ==> chans[i].queue == old(chans[i].queue) && (i != handle ==> chans[i].closed == old(chans[i].closed))
    {
      ghost var after := M.Next(model, M.Unsubscribe(handle));
      CloseOne(handle, model.subs, after.subs, |model.total|);
      model := after;
    }

    /** One pass of the write loop: queue a copy for this listener, or drop it. */
    method Offer(id: nat, p: bytes, ghost s: M.Sub, ghost at: nat)
      requires id in listeners && id < |chans| && Distinct() && Tracks(id, s)
      modifies this`listeners, listeners[id]
      ensures Tracks(id, M.Offer(s, p, at))
      ensures forall k :: k != id ==> (k in listeners <==> k in old(listeners)) && (k in listeners ==> listeners[k] == old(listeners[k]))
    {
      var c := listeners[id];
      var sent := c.TrySend(p);
      if !sent {
        listeners := listeners - {id};
        c.Close();
      }
    }

    method FanOut(p: bytes, ghost before: seq<M.Sub>, ghost after: seq<M.Sub>, ghost at: nat)
      requires Tracking(before, before, {})
      requires |after| == |before| && forall i :: 0 <= i < |before| ==> after[i] == M.Offer(before[i], p, at)
      modifies this`listeners, chans
      ensures Tracking(after, after, {})
    {
      var pending := listeners.Keys;
      while pending != {}
        invariant pending <= listeners.Keys
        invariant Tracking(before, after, pending)
      {
        var id :| id in pending;
        assert Tracks(id, before[id]);
        label offer:
        Offer(id, p, before[id], at);
        pending := pending - {id};
        forall i | 0 <= i < |chans| ensures Tracks(i, if i in pending then before[i] else after[i]) {
          assert i != id ==> old@offer(Tracks(i, if i in pending then before[i] else after[i]));
        }
      }
    }

    /** Into the tail buffer first; the listeners are not touched. */
    method Capture(p: bytes)
      requires Valid()
      modifies output.buf, output.buf.data
      ensures output.Valid() && output.Contents() == Tail(model.total + p, model.cap)
      ensures output.buf.data == old(output.buf.data) || fresh(output.buf.data)
      ensures Tracking(model.subs, model.subs, {})
    {
      output.Write(p);
      TailOfTail(model.total, p, model.cap);
    }

    /** Then to the listeners; the buffer is not touched. */
    method Relay(p: bytes, ghost after: M.Job)
      requires output.Valid() && Tracking(model.subs, model.subs, {})
      requires after == M.Next(model, M.Write(p))
      modifies this`listeners, chans
      ensures output.Valid() && output.Contents() == old(output.Contents())
      ensures Tracking(after.subs, after.subs, {})
      ensures forall i :: 0 <= i < |chans| ==> Offered(old(chans[i].queue), old(chans[i].closed), p, chans[i].queue, chans[i].closed)
    {
      FanOut(p, model.subs, after.subs, |model.total|);
      forall i | 0 <= i < |chans|
        ensures Offered(old(chans[i].queue), old(chans[i].closed), p, chans[i].queue, chans[i].closed)
      {
        assert old(Tracks(i, model.subs[i])) && Tracks(i, after.subs[i]);
      }
    }

    method Write(p: bytes)
      requires Valid()
      modifies this, output.buf, output.buf.data, chans
      ensures Valid() && model == M.Next(old(model), M.Write(p)) && chans == old(chans)
      ensures forall i :: 0 <= i < |chans| ==> Offered(old(chans[i].queue), old(chans[i].closed), p, chans[i].queue, chans[i].closed)
      ensures output.buf.data == old(output.buf.data) || fresh(output.buf.data)
    {
      ghost var after := M.Next(model, M.Write(p));
      Capture(p);
      Relay(p, after);
      model := after;
    }

    method Drop(id: nat, ghost s: M.Sub, ghost why: M.Reason, ghost at: nat)
      requires id in listeners && id < |chans| && Distinct() && Tracks(id, s)
      modifies this`listeners, listeners[id]
      ensures Tracks(id, M.CloseAt(s, why, at))
      ensures listeners == old(listeners) - {id}
    {
      var c := listeners[id];
      listeners := listeners - {id};
      c.Close();
    }

    /** One pass of the closing loop. */
    method CloseNext(id: nat, ghost before: seq<M.Sub>, ghost after: seq<M.Sub>, ghost at: nat)
      requires id in listeners && Tracking(before, after, listeners.Keys)
      requires after[id] == M.CloseAt(before[id], M.JobFinished, at)
      modifies this`listeners, chans
      ensures Tracking(before, after, listeners.Keys) && listeners == old(listeners) - {id}
    {
      assert Tracks(id, before[id]);
      Drop(id, before[id], M.JobFinished, at);
      forall i | 0 <= i < |chans| ensures Tracks(i, if i in listeners then before[i] else after[i]) {
        assert i != id ==> old(Tracks(i, if i in listeners then before[i] else after[i]));
      }
    }

    /** The loop that closes what is still open. */
    method CloseListeners(ghost before: seq<M.Sub>, ghost after: seq<M.Sub>, ghost at: nat)
      requires Tracking(before, before, {})
      requires |after| == |before| && forall i :: 0 <= i < |before| ==> after[i] == M.CloseAt(before[i], M.JobFinished, at)
      modifies this`listeners, chans
      ensures Tracking(after, after, {}) && listeners == map[]
    {
      while listeners != map[]
        invariant Tracking(before, after, listeners.Keys)
        decreases listeners.Keys
      {
        var id :| id in listeners;
        CloseNext(id, before, after, at);
      }
    }

    /** The job's outcome, by what its function returned. */
    method SetState(err: M.Result)
      modifies this`state
      ensures state == M.Outcome(err) && M.StateTells(state, err)
    {
      match err {
        case ContextCanceled => state := M.Cancelled;
        case Error(msg) => state := M.Failed(msg);
        case NoError => state := M.Succeeded;
      }
    }

    /** Every listener still open is closed; the buffer is not touched. */
    method ReleaseListeners(ghost after: M.Job)
      requires output.Valid() && Tracking(model.subs, model.subs, {})
      requires model.state == M.Running && exists r :: after == M.Next(model, M.Finish(r))
      modifies this`listeners, chans
      ensures output.Valid() && output.Contents() == old(output.Contents())
      ensures Tracking(after.subs, after.subs, {}) && listeners == map[]
      ensures forall i :: 0 <= i < |chans| ==> chans[i].closed && chans[i].queue == old(chans[i].queue)
    {
      CloseListeners(model.subs, after.subs, |model.total|);
      forall i | 0 <= i < |chans| ensures chans[i].closed && chans[i].queue == old(chans[i].queue) {
        assert old(Tracks(i, model.subs[i])) && Tracks(i, after.subs[i]);
      }
    }

    /** The block that ends the job's goroutine: it runs once, when the job's function has returned. */
    method Finish(err: M.Result)
      requires Valid() && state == M.Running
      modifies this, chans
      ensures Valid() && model == M.Next(old(model), M.Finish(err)) && chans == old(chans)
      ensures listeners == map[] && M.StateTells(state, err)
      ensures forall i :: 0 <= i < |chans| ==> chans[i].closed && chans[i].queue == old(chans[i].queue)
    {
      ghost var after := M.Next(model, M.Finish(err));
      SetState(err);
      ReleaseListeners(after);
      model := after;
    }

    method CloseDone()
      requires Valid() && state != M.Running && !done
      modifies this`done, this`model
      ensures Valid() && model == M.Next(old(model), M.CloseDone) && done
    {
      done := true;
      model := M.Next(model, M.CloseDone);
    }

    /** A reader takes the next chunk from the channel it was handed. */
    method Receive(ch: Channel, ghost i: nat) returns (chunk: bytes)
      requires Valid() && i < |chans| && ch == chans[i] && ch.queue != []
      modifies this`model, chans
      ensures Valid() && model == M.Next(old(model), M.Receive(i)) && chans == old(chans)
      ensures model.subs[i].received == old(model.subs[i].received) + [chunk]
    {
      assert Tracks(i, model.subs[i]);
      var got := ch.Receive();
      chunk := got.value;
      model := M.Next(model, M.Receive(i));
    }
  }
}
