/**
 * handler_run.go: the dispatch of a dequeued event to its callback
 * (syncHandler), the retry rule (handleErr, and the same rule written inline
 * in processNextWorkItem), and the worker loop. The functions of this file
 * are methods of *Handler in the source; here the handler is passed as an
 * explicit receiver `h`.
 */
module HandlerRun {

  import opened Kube
  import opened Queue
  import opened HandlerBuild
  import opened HandlerEvent

  /** The retry bound of the handlers (NumRequeues(key) < 10). */
  const MaxRequeues: nat := 10

  /**
   * What processing one event did: the error returned, the callback invoked
   * (if any) and the object a "synced" event was recorded for (if any); or a
   * call of a nil callback, which aborts the worker.
   */
  datatype Sync = Synced(err: Option<Error>, invoked: Option<Func>, recorded: Option<KObject>) | NilCallback

  const Skipped := Synced(None, None, None)

  function SyncError(cause: Error): Error
  {
    Wrapped("failed to synchronize handler", cause)
  }

  /** The registry slot an event type selects; None for a type that has no slot. */
  function SlotFor(events: Callbacks, t: EventType): (r: Option<Option<Func>>)
    ensures r.Some? <==> t == CreateEvent || t == UpdateEvent || t == DeleteEvent
    ensures t == CreateEvent ==> r == Some(events.create)
    ensures t == UpdateEvent ==> r == Some(events.update)
    ensures t == DeleteEvent ==> r == Some(events.delete)
  {
    if t == CreateEvent then Some(events.create)
    else if t == UpdateEvent then Some(events.update)
    else if t == DeleteEvent then Some(events.delete)
    else None
  }

  /** Calling the selected callback once the object was found. */
  function Dispatch(c: Cluster, f: Func, key: string, obj: KObject): Sync
  {
    match c.invoke(f, key, obj)
    case Some(err) => Synced(Some(err), Some(f), None)
    case None => Synced(None, Some(f), if obj.isRuntimeObject then Some(obj) else None)
  }

  /**
   * syncHandler as written: split the key, look the object up (a missing
   * object ends processing without error), select the slot by event type
   * (an unknown type is skipped) and call it, also when the slot is nil.
   */
  function SyncHandler(c: Cluster, events: Callbacks, e: Event): (r: Sync)
    ensures c.split(e.key).Err? ==> r == Synced(Some(SyncError(c.split(e.key).error)), None, None)
    ensures c.split(e.key).Ok? && c.lookup(c.split(e.key).value.namespace, c.split(e.key).value.name).NotFound? ==> r == Skipped
    ensures c.split(e.key).Ok? && c.lookup(c.split(e.key).value.namespace, c.split(e.key).value.name).Failed? ==>
      r == Synced(Some(SyncError(c.lookup(c.split(e.key).value.namespace, c.split(e.key).value.name).err)), None, None)
    ensures SlotFor(events, e.eventType).None? ==> r.Synced? && r.invoked.None? && r.recorded.None?
    ensures (c.split(e.key).Ok? && c.lookup(c.split(e.key).value.namespace, c.split(e.key).value.name).Found? &&
      SlotFor(events, e.eventType).None?) ==> r == Skipped
    ensures r.NilCallback? <==>
      && c.split(e.key).Ok?
      && c.lookup(c.split(e.key).value.namespace, c.split(e.key).value.name).Found?
      && SlotFor(events, e.eventType) == Some(None)
    ensures r.Synced? && r.invoked.Some? ==> SlotFor(events, e.eventType) == Some(Some(r.invoked.value))
    ensures r.Synced? && r.recorded.Some? ==> r.invoked.Some? && r.err.None?
  {
    match c.split(e.key)
    case Err(err) => Synced(Some(SyncError(err)), None, None)
    case Ok(p) =>
      match c.lookup(p.namespace, p.name)
      case NotFound(_) => Skipped
      case Failed(err) => Synced(Some(SyncError(err)), None, None)
      case Found(obj) =>
        match SlotFor(events, e.eventType)
        case None => Skipped
        case Some(slot) =>
          if slot.None? then NilCallback else Dispatch(c, slot.value, e.key, obj)
  }

  /**
   * syncHandler with the nil check of the older generation (handler.go:249):
   * an unset slot ends processing without error instead of calling nil.
   */
  function SyncHandlerGuarded(c: Cluster, events: Callbacks, e: Event): (r: Sync)
    ensures r.Synced?
    ensures SyncHandler(c, events, e).Synced? ==> r == SyncHandler(c, events, e)
    ensures SyncHandler(c, events, e).NilCallback? ==> r == Skipped
  {
    match c.split(e.key)
    case Err(err) => Synced(Some(SyncError(err)), None, None)
    case Ok(p) =>
      match c.lookup(p.namespace, p.name)
      case NotFound(_) => Skipped
      case Failed(err) => Synced(Some(SyncError(err)), None, None)
      case Found(obj) =>
        match SlotFor(events, e.eventType)
        case None => Skipped
        case Some(slot) =>
          if slot.None? then Skipped else Dispatch(c, slot.value, e.key, obj)
  }

  /**
   * A callback that was found is invoked with the event's key and the looked
   * up object; its error is returned and nothing is recorded, its success
   * returns nil and records the object when it is a runtime object.
   */
  lemma {:induction false} CallbackOutcome(c: Cluster, events: Callbacks, e: Event, f: Func)
    requires c.split(e.key).Ok?
    requires c.lookup(c.split(e.key).value.namespace, c.split(e.key).value.name).Found?
    requires SlotFor(events, e.eventType) == Some(Some(f))
    ensures var obj := c.lookup(c.split(e.key).value.namespace, c.split(e.key).value.name).obj;
      var r := SyncHandler(c, events, e);
      && r.Synced? && r.invoked == Some(f)
      && r.err == c.invoke(f, e.key, obj)
      && (r.err.Some? ==> r.recorded.None?)
      && (r.err.None? ==> (r.recorded.Some? <==> obj.isRuntimeObject))
  {
    var p := c.split(e.key).value;
    assert SyncHandler(c, events, e) == Dispatch(c, f, e.key, c.lookup(p.namespace, p.name).obj);
  }

  /** The defect: an event whose slot was never registered reaches a call of nil. */
  lemma UnsetSlotPanics(c: Cluster, e: Event)
    requires c.split(e.key).Ok?
    requires c.lookup(c.split(e.key).value.namespace, c.split(e.key).value.name).Found?
    requires e.eventType == UpdateEvent
    ensures SyncHandler(c, Callbacks(Some(Func(0)), None, None), e) == NilCallback
    ensures SyncHandlerGuarded(c, Callbacks(Some(Func(0)), None, None), e) == Skipped
  {
  }

  /**
   * A delete event is dispatched only while the object is still in the
   * informer's cache: once it is gone the lookup reports NotFound and the
   * delete callback is not called.
   */
  lemma {:induction false} VanishedObjectSkipped(c: Cluster, events: Callbacks, e: Event)
    requires c.split(e.key).Ok?
    requires c.lookup(c.split(e.key).value.namespace, c.split(e.key).value.name).NotFound?
    ensures SyncHandlerGuarded(c, events, e) == Skipped
  {
    assert SyncHandler(c, events, e) == Skipped;
  }

  /** The queue calls handleErr makes: Forget on success, else AddRateLimited below the bound and Forget at it. */
  function HandleErrCalls<T>(failed: bool, n: nat, key: T): seq<Call<T>>
  {
    if !failed then [ForgetCall(key)]
    else if n < MaxRequeues then [NumRequeuesCall(key), AddRateLimitedCall(key)]
    else [NumRequeuesCall(key), ForgetCall(key)]
  }

  /**
   * The queue calls of the decision written inline in processNextWorkItem
   * (`err != nil && NumRequeues(key) < 10`, NumRequeues consulted only when
   * there is an error), before the deferred Done.
   */
  function InlineRetryCalls<T>(failed: bool, n: nat, key: T): seq<Call<T>>
  {
    (if failed then [NumRequeuesCall(key)] else [])
    + (if failed && n < MaxRequeues then [AddRateLimitedCall(key)] else [ForgetCall(key)])
  }

  lemma InlineRetryIsHandleErr<T>(failed: bool, n: nat, key: T)
    ensures InlineRetryCalls(failed, n, key) == HandleErrCalls(failed, n, key)
  {
  }

  /** The requeue counter of one key after a run of queue calls. */
  function CountAfter<T(==)>(calls: seq<Call<T>>, key: T, n: nat): nat
    decreases |calls|
  {
    if calls == [] then n
    else
      var n' := match calls[0]
        case ForgetCall(x) => if x == key then 0 else n
        case AddRateLimitedCall(x) => if x == key then n + 1 else n
        case _ => n;
      CountAfter(calls[1..], key, n')
  }

  /** The counter after one handleErr: reset on success and at the bound, incremented below it. */
  function NextCount(failed: bool, n: nat): (r: nat)
    ensures r == 0 <==> !failed || n >= MaxRequeues
    ensures r != 0 ==> r == n + 1
  {
    if failed && n < MaxRequeues then n + 1 else 0
  }

  lemma HandleErrCounts<T>(failed: bool, n: nat, key: T)
    ensures CountAfter(HandleErrCalls(failed, n, key), key, n) == NextCount(failed, n)
  {
    var calls := HandleErrCalls(failed, n, key);
    if failed {
      assert calls[1..][1..] == [];
      assert CountAfter(calls[1..], key, n) == CountAfter(calls[1..][1..], key, NextCount(failed, n));
    } else {
      assert calls[1..] == [];
    }
  }

  /** The counter after a run of processing attempts of one key (true = the attempt failed). */
  function CountAfterAttempts(n: nat, failures: seq<bool>): nat
    decreases |failures|
  {
    if failures == [] then n else CountAfterAttempts(NextCount(failures[0], n), failures[1..])
  }

  /** Starting within the bound, the counter never exceeds 10, whatever the outcomes. */
  lemma {:induction false} CountNeverExceedsBound(n: nat, failures: seq<bool>)
    requires n <= MaxRequeues
    ensures CountAfterAttempts(n, failures) <= MaxRequeues
    decreases |failures|
  {
    if failures != [] {
      CountNeverExceedsBound(NextCount(failures[0], n), failures[1..]);
    }
  }

  function Failures(k: nat): (r: seq<bool>)
    ensures |r| == k && forall i :: 0 <= i < k ==> r[i]
  {
    if k == 0 then [] else [true] + Failures(k - 1)
  }

  /** k consecutive failures, k at most 10, of a key starting from zero leave the counter at k. */
  lemma {:induction false} ConsecutiveFailuresCount(n: nat, k: nat)
    requires n + k <= MaxRequeues
    ensures CountAfterAttempts(n, Failures(k)) == n + k
    decreases k
  {
    if k > 0 {
      assert Failures(k)[1..] == Failures(k - 1);
      ConsecutiveFailuresCount(n + 1, k - 1);
    }
  }

  /**
   * After ten consecutive failures the next failure makes handleErr call
   * Forget rather than AddRateLimited, and the counter is back at zero.
   */
  lemma EleventhFailureForgets<T>(key: T)
    ensures CountAfterAttempts(0, Failures(10)) == 10
    ensures HandleErrCalls(true, CountAfterAttempts(0, Failures(10)), key) == [NumRequeuesCall(key), ForgetCall(key)]
    ensures CountAfterAttempts(0, Failures(11)) == 0
  {
    ConsecutiveFailuresCount(0, 10);
    assert Failures(11) == Failures(10) + [true] by {
      assert Failures(11)[1..] == Failures(10);
      assert Failures(10) == [true] + Failures(9);
    }
    CountAfterAttemptsSnoc(0, Failures(10), true);
  }

  lemma {:induction false} CountAfterAttemptsSnoc(n: nat, failures: seq<bool>, f: bool)
    ensures CountAfterAttempts(n, failures + [f]) == NextCount(f, CountAfterAttempts(n, failures))
    decreases |failures|
  {
    if failures == [] {
      assert [] + [f] == [f];
    } else {
      assert (failures + [f])[1..] == failures[1..] + [f];
      CountAfterAttemptsSnoc(NextCount(failures[0], n), failures[1..], f);
    }
  }

  /** handleErr: on success forget the key; on error requeue it below the bound, else forget it. */
  method HandleErr(h: Handler, err: Option<Error>, key: Event)
    modifies h.queue
    ensures h.queue.calls == old(h.queue.calls) + HandleErrCalls(err.Some?, old(h.queue.Requeues(key)), key)
    ensures Settled(h.queue, key, err.Some? && old(h.queue.Requeues(key)) < MaxRequeues)
    ensures h.queue.ready == old(h.queue.ready) && h.queue.processing == old(h.queue.processing)
    ensures h.queue.shuttingDown == old(h.queue.shuttingDown)
    ensures old(h.queue.Bounded()) ==> h.queue.Bounded()
  {
    if err.None? {
      h.queue.Forget(key);
      return;
    }
    var n := h.queue.NumRequeues(key);
    if n < MaxRequeues {
      h.queue.AddRateLimited(key);
      return;
    }
    h.queue.Forget(key);
  }

  /**
   * processNextWorkItem: take the next event; on shutdown report false and
   * leave the queue as it was; otherwise process it with syncHandler as
   * written. A call of a nil callback panics: only the deferred Done runs and
   * the panic leaves the function (`panicked`). Otherwise the event is
   * settled by the inline retry rule, marked Done exactly once, and true is
   * reported; that outcome is the corrected sync's, since the two agree
   * wherever the nil call is not reached.
   */
  method ProcessNextWorkItem(h: Handler) returns (more: bool, panicked: bool)
    requires |h.queue.ready| > 0 || h.queue.shuttingDown
    modifies h, h.queue
    ensures more <==> old(|h.queue.ready|) > 0 && SyncHandler(h.cluster, h.events, old(h.queue.ready)[0]).Synced?
    ensures panicked <==> old(|h.queue.ready|) > 0 && SyncHandler(h.cluster, h.events, old(h.queue.ready)[0]).NilCallback?
    ensures h.queue.shuttingDown == old(h.queue.shuttingDown)
    ensures !more && !panicked ==> h.queue.calls == old(h.queue.calls) + [GetCall] && h.recorded == old(h.recorded)
    ensures !more && !panicked ==> h.queue.ready == old(h.queue.ready) && h.queue.processing == old(h.queue.processing)
    ensures !more ==> h.queue.requeues == old(h.queue.requeues) && h.queue.delayed == old(h.queue.delayed)
    ensures panicked ==>
      var e := old(h.queue.ready)[0];
      && h.queue.ready == old(h.queue.ready)[1..]
      && h.queue.processing == old(h.queue.processing) - {e}
      && h.queue.calls == old(h.queue.calls) + [GetCall, DoneCall(e)]
      && h.recorded == old(h.recorded)
    ensures more ==>
      var e := old(h.queue.ready)[0];
      var s := SyncHandlerGuarded(h.cluster, h.events, e);
      var n := old(h.queue.Requeues(e));
      && s == SyncHandler(h.cluster, h.events, e)
      && h.queue.ready == old(h.queue.ready)[1..]
      && h.queue.processing == old(h.queue.processing) - {e}
      && h.queue.calls == old(h.queue.calls) + [GetCall] + InlineRetryCalls(s.err.Some?, n, e) + [DoneCall(e)]
      && Settled(h.queue, e, s.err.Some? && n < MaxRequeues)
      && h.recorded == old(h.recorded) + (if s.recorded.Some? then [s.recorded.value] else [])
    ensures var d := NextItem(h.cluster, h.events, old(h.queue.ready), old(h.queue.requeues));
      && h.queue.State() == Apply(old(h.queue.State()), d.pass)
      && h.recorded == old(h.recorded) + d.recorded
      && panicked == d.panicked
    ensures old(h.queue.Bounded()) ==> h.queue.Bounded()
  {
    var item, shutdown := h.queue.Get();
    if shutdown {
      return false, false;
    }
    var e := item.value;
    var s := SyncHandler(h.cluster, h.events, e);
    if s.NilCallback? {
      h.queue.Done(e);
      return false, true;
    }
    if s.recorded.Some? {
      h.recorded := h.recorded + [s.recorded.value];
    }
    if s.err.Some? {
      var n := h.queue.NumRequeues(e);
      if n < MaxRequeues {
        h.queue.AddRateLimited(e);
        h.queue.Done(e);
        return true, false;
      }
    }
    h.queue.Forget(e);
    h.queue.Done(e);
    more, panicked := true, false;
  }

  /**
   * What processing ready items did: its effect on the queue, the objects a
   * "synced" event was recorded for, and whether it stopped on a panic.
   */
  datatype Drained = Drained(pass: Pass<Event>, recorded: seq<KObject>, panicked: bool)

  /** One run after another; the second decides whether the whole panicked. */
  function ThenDrained(a: Drained, b: Drained): Drained
  {
    Drained(Then(a.pass, b.pass), a.recorded + b.recorded, b.panicked)
  }

  /**
   * What one processNextWorkItem does to the ready items `items` with the
   * counters `rq`: on an empty queue only the Get that reports shutdown;
   * otherwise the head item is taken and, if its callback is nil, released
   * by the deferred Done as the panic unwinds; else it is retried by the
   * inline rule (counter settled, requeued or forgotten), released by Done,
   * and its synced object recorded.
   */
  function NextItem(c: Cluster, events: Callbacks, items: seq<Event>, rq: map<Event, nat>): (r: Drained)
    ensures r.pass.handed == (if items == [] then 0 else 1)
    ensures r.panicked ==> items != []
    ensures items != [] ==> r.pass.released == {items[0]} && DoneCall(items[0]) in r.pass.calls
    ensures items == [] ==> r.pass.released == {}
  {
    if items == [] then Drained(Pass([GetCall], rq, [], {}, 0), [], false)
    else
      var e := items[0];
      var s := SyncHandler(c, events, e);
      if s.NilCallback? then Drained(Pass([GetCall, DoneCall(e)], rq, [], {e}, 1), [], true)
      else
        var n := Count(rq, e);
        var requeue := s.err.Some? && n < MaxRequeues;
        Drained(
          Pass([GetCall] + InlineRetryCalls(s.err.Some?, n, e) + [DoneCall(e)], Resettled(rq, e, requeue),
            if requeue then [e] else [], {e}, 1),
          if s.recorded.Some? then [s.recorded.value] else [],
          false)
  }

  /**
   * A worker's run over the ready items of a shutting-down queue: one
   * processNextWorkItem after another until one reports shutdown (the queue
   * is empty) or panics. Without a panic every item is handed out.
   */
  function Drain(c: Cluster, events: Callbacks, items: seq<Event>, rq: map<Event, nat>): (r: Drained)
    ensures r.pass.handed <= |items|
    ensures !r.panicked ==> r.pass.handed == |items|
    ensures r.panicked ==> r.pass.handed >= 1
    decreases |items|
  {
    var first := NextItem(c, events, items, rq);
    if items == [] || first.panicked then first
    else ThenDrained(first, Drain(c, events, items[1..], first.pass.requeues))
  }

  /** Exactly the items a drain hands out are released. */
  lemma {:induction false} DrainReleasesHanded(c: Cluster, events: Callbacks, items: seq<Event>, rq: map<Event, nat>)
    ensures var p := Drain(c, events, items, rq).pass;
      forall x :: x in p.released <==> x in items[..p.handed]
    decreases |items|
  {
    var first := NextItem(c, events, items, rq);
    if items != [] && !first.panicked {
      var rest := Drain(c, events, items[1..], first.pass.requeues);
      DrainReleasesHanded(c, events, items[1..], first.pass.requeues);
      assert var rp := Drain(c, events, items[1..], first.pass.requeues).pass;
        forall x :: x in rp.released <==> x in items[1..][..rp.handed];
      assert Drain(c, events, items, rq).pass == Then(first.pass, rest.pass);
      ThenReleasesPrefix(first.pass, rest.pass, items);
    } else if items != [] {
      assert items[..1] == [items[0]];
    }
  }

  /** Every item a drain releases has a Done among its calls. */
  lemma {:induction false} DrainReleasesEach(c: Cluster, events: Callbacks, items: seq<Event>, rq: map<Event, nat>)
    ensures var p := Drain(c, events, items, rq).pass;
      && (forall x :: x in p.released <==> x in items[..p.handed])
      && (forall x :: x in p.released ==> DoneCall(x) in p.calls)
    decreases |items|
  {
    DrainReleasesHanded(c, events, items, rq);
    var first := NextItem(c, events, items, rq);
    if items != [] && !first.panicked {
      var rest := Drain(c, events, items[1..], first.pass.requeues);
      DrainReleasesEach(c, events, items[1..], first.pass.requeues);
      assert var rp := Drain(c, events, items[1..], first.pass.requeues).pass;
        forall x :: x in rp.released ==> DoneCall(x) in rp.calls;
      var p := Drain(c, events, items, rq).pass;
      assert p.released == first.pass.released + rest.pass.released;
      assert p.calls == first.pass.calls + rest.pass.calls;
    }
  }

  /**
   * A drain without a panic makes at least three calls per item and ends
   * with the Get that reports shutdown; one with a panic ends with the Done
   * of the last item handed out, whose callback is nil.
   */
  lemma {:induction false} DrainEnds(c: Cluster, events: Callbacks, items: seq<Event>, rq: map<Event, nat>)
    ensures var d := Drain(c, events, items, rq);
      && (!d.panicked ==> |d.pass.calls| >= 3 * |items| + 1 && d.pass.calls[|d.pass.calls| - 1] == GetCall)
      && (d.panicked ==>
        && |d.pass.calls| >= 2
        && d.pass.calls[|d.pass.calls| - 1] == DoneCall(items[d.pass.handed - 1])
        && SyncHandler(c, events, items[d.pass.handed - 1]).NilCallback?)
    decreases |items|
  {
    var first := NextItem(c, events, items, rq);
    if items != [] && !first.panicked {
      var rest := Drain(c, events, items[1..], first.pass.requeues);
      DrainEnds(c, events, items[1..], first.pass.requeues);
      var d := Drain(c, events, items, rq);
      assert |first.pass.calls| >= 3;
      assert d.pass.calls == first.pass.calls + rest.pass.calls;
      assert rest.panicked ==> items[d.pass.handed - 1] == items[1..][rest.pass.handed - 1];
    }
  }

  /** A drain keeps every counter within the retry bound. */
  lemma {:induction false} DrainKeepsBound(c: Cluster, events: Callbacks, items: seq<Event>, rq: map<Event, nat>)
    requires forall x :: x in rq ==> rq[x] <= MaxRequeues
    ensures var p := Drain(c, events, items, rq).pass; forall x :: x in p.requeues ==> p.requeues[x] <= MaxRequeues
    decreases |items|
  {
    var first := NextItem(c, events, items, rq);
    var rq' := first.pass.requeues;
    assert forall x :: x in rq' ==> rq'[x] <= MaxRequeues by {
      forall x | x in rq'
        ensures rq'[x] <= MaxRequeues
      {
        if items != [] && x == items[0] && x !in rq {
        } else {
          assert x in rq;
        }
      }
    }
    if items != [] && !first.panicked {
      DrainKeepsBound(c, events, items[1..], rq');
      assert var p := Drain(c, events, items[1..], rq').pass; forall x :: x in p.requeues ==> p.requeues[x] <= MaxRequeues;
      assert Drain(c, events, items, rq).pass.requeues == Drain(c, events, items[1..], rq').pass.requeues;
    }
  }

  /**
   * Processing the first item and then draining the rest has the effect of
   * draining the whole.
   */
  lemma DrainAdvances(c: Cluster, events: Callbacks, st: Snapshot<Event>, rec: seq<KObject>)
    requires st.ready != [] && !NextItem(c, events, st.ready, st.requeues).panicked
    ensures var first := NextItem(c, events, st.ready, st.requeues);
      var st' := Apply(st, first.pass);
      var rec' := rec + first.recorded;
      var d := Drain(c, events, st.ready, st.requeues);
      var d' := Drain(c, events, st'.ready, st'.requeues);
      && Apply(st', d'.pass) == Apply(st, d.pass)
      && rec' + d'.recorded == rec + d.recorded
      && d'.panicked == d.panicked
  {
    var first := NextItem(c, events, st.ready, st.requeues);
    var st' := Apply(st, first.pass);
    assert st'.ready == st.ready[1..];
    var rest := Drain(c, events, st'.ready, st'.requeues);
    assert Drain(c, events, st.ready, st.requeues) == ThenDrained(first, rest);
    ApplyThen(st, first.pass, rest.pass);
    assert (rec + first.recorded) + rest.recorded == rec + (first.recorded + rest.recorded);
  }

  /**
   * The queue a drain leaves: without a panic nothing ready and at least
   * three new calls per item plus the last Get; with one, a last call that
   * is the Done of an item whose callback is nil.
   */
  lemma DrainedQueue(c: Cluster, events: Callbacks, st: Snapshot<Event>)
    ensures var d := Drain(c, events, st.ready, st.requeues);
      var after := Apply(st, d.pass);
      && (!d.panicked ==> after.ready == [] && |after.calls| >= |st.calls| + 3 * |st.ready| + 1)
      && (d.panicked ==>
        && |after.calls| >= 2
        && after.calls[|after.calls| - 1].DoneCall?
        && SyncHandler(c, events, after.calls[|after.calls| - 1].item).NilCallback?)
  {
    DrainEnds(c, events, st.ready, st.requeues);
    var d := Drain(c, events, st.ready, st.requeues);
    assert |d.pass.calls| >= 1;
    var last := d.pass.calls[|d.pass.calls| - 1];
    assert !d.panicked ==> |d.pass.calls| >= 3 * |st.ready| + 1;
    assert d.panicked ==> last == DoneCall(st.ready[d.pass.handed - 1]) && SyncHandler(c, events, st.ready[d.pass.handed - 1]).NilCallback?;
    var after := Apply(st, d.pass);
    assert after.calls == st.calls + d.pass.calls;
    assert after.calls[|after.calls| - 1] == last;
  }

  /** Every item a drain hands out is released with a Done and is no longer checked out. */
  lemma DrainedQueueReleases(c: Cluster, events: Callbacks, st: Snapshot<Event>)
    ensures var after := Apply(st, Drain(c, events, st.ready, st.requeues).pass);
      && |after.ready| <= |st.ready|
      && forall x :: x in st.ready[..|st.ready| - |after.ready|] ==>
        DoneCall(x) in after.calls[|st.calls|..] && x !in after.processing
  {
    var d := Drain(c, events, st.ready, st.requeues);
    DrainReleasesEach(c, events, st.ready, st.requeues);
    assert Apply(st, d.pass).calls[|st.calls|..] == d.pass.calls;
    assert |st.ready| - |Apply(st, d.pass).ready| == d.pass.handed;
  }

  /**
   * worker: process items until the queue reports shutdown or a nil
   * callback panics. The loop ends normally only once the queue is shutting
   * down, so that is required here; its effect is then `Drain` of the ready
   * items: every item is synced, settled and released with Done in order
   * until one reaches a nil callback, after which nothing more is processed.
   */
  method Worker(h: Handler) returns (panicked: bool)
    requires h.queue.shuttingDown
    modifies h, h.queue
    ensures var d := Drain(h.cluster, h.events, old(h.queue.ready), old(h.queue.requeues));
      && h.queue.State() == Apply(old(h.queue.State()), d.pass)
      && h.recorded == old(h.recorded) + d.recorded
      && panicked == d.panicked
    ensures h.queue.shuttingDown
    ensures !panicked ==> h.queue.ready == []
    ensures !panicked ==> |h.queue.calls| >= |old(h.queue.calls)| + 3 * |old(h.queue.ready)| + 1
    ensures |h.queue.ready| <= |old(h.queue.ready)|
    ensures forall x :: x in old(h.queue.ready)[..|old(h.queue.ready)| - |h.queue.ready|] ==>
      DoneCall(x) in h.queue.calls[|old(h.queue.calls)|..] && x !in h.queue.processing
    ensures panicked ==>
      && |h.queue.calls| >= 2
      && h.queue.calls[|h.queue.calls| - 1].DoneCall?
      && SyncHandler(h.cluster, h.events, h.queue.calls[|h.queue.calls| - 1].item).NilCallback?
    ensures old(h.queue.Bounded()) ==> h.queue.Bounded()
  {
    ghost var s0, r0 := h.queue.State(), h.recorded;
    ghost var d0 := Drain(h.cluster, h.events, h.queue.ready, h.queue.requeues);
    DrainedQueue(h.cluster, h.events, s0);
    DrainedQueueReleases(h.cluster, h.events, s0);
    ghost var bounded := h.queue.Bounded();
    var more := true;
    panicked := false;
    while more
      invariant h.queue.shuttingDown
      invariant more ==> !panicked
      invariant more ==>
        var d := Drain(h.cluster, h.events, h.queue.ready, h.queue.requeues);
        && Apply(h.queue.State(), d.pass) == Apply(s0, d0.pass)
        && h.recorded + d.recorded == r0 + d0.recorded
        && d.panicked == d0.panicked
      invariant !more ==>
        && h.queue.State() == Apply(s0, d0.pass)
        && h.recorded == r0 + d0.recorded
        && panicked == d0.panicked
      invariant bounded ==> h.queue.Bounded()
      decreases |h.queue.ready| + (if more then 1 else 0)
    {
      ghost var st, rec := h.queue.State(), h.recorded;
      more, panicked := ProcessNextWorkItem(h);
      if more {
        DrainAdvances(h.cluster, h.events, st, rec);
      }
    }
  }
}
