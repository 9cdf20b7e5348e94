/**
 * The rate-limiting work queue the handlers drain (client-go's
 * workqueue.RateLimitingInterface), reduced to the state the engine's own
 * code depends on: the items admitted and not yet handed out, the items
 * checked out by a worker, the items re-admitted after a failure, a per-item
 * requeue counter, the shutdown flag, and the log of calls made on it.
 *
 * Modelling assumption: AddRateLimited increments the item's counter by one
 * and Forget resets it to zero; backoff delays and deduplication are not
 * modelled.
 */
module Queue {

  import opened Kube

  datatype Call<T> =
    | AddCall(item: T)
    | GetCall
    | DoneCall(item: T)
    | ForgetCall(item: T)
    | AddRateLimitedCall(item: T)
    | NumRequeuesCall(item: T)

  class WorkQueue<T(==)> {
    var ready: seq<T>
    var processing: set<T>
    var delayed: seq<T>
    var requeues: map<T, nat>
    var shuttingDown: bool
    var calls: seq<Call<T>>

    constructor ()
      ensures ready == [] && processing == {} && delayed == []
      ensures requeues == map[] && !shuttingDown && calls == []
    {
      ready, processing, delayed := [], {}, [];
      requeues, shuttingDown, calls := map[], false, [];
    }

    /** NumRequeues as a value: the counter, zero for an item never requeued. */
    function Requeues(x: T): nat
      reads this
    {
      if x in requeues then requeues[x] else 0
    }

    /** The queue's state as a value; the shutdown flag aside. */
    function State(): Snapshot<T>
      reads this
    {
      Snapshot(calls, ready, processing, requeues, delayed)
    }

    /** Every counter is within the retry bound 10 of the handlers. */
    ghost predicate Bounded()
      reads this
    {
      forall x :: x in requeues ==> requeues[x] <= 10
    }

    method Add(x: T)
      modifies this
      ensures ready == old(ready) + [x] && calls == old(calls) + [AddCall(x)]
      ensures processing == old(processing) && delayed == old(delayed)
      ensures requeues == old(requeues) && shuttingDown == old(shuttingDown)
    {
      ready := ready + [x];
      calls := calls + [AddCall(x)];
    }

    /**
     * Get returns only once an item is ready or the queue is shutting down;
     * the precondition is that condition (blocking is not modelled). After
     * shutdown the remaining ready items are still handed out first.
     */
    method Get() returns (item: Option<T>, shutdown: bool)
      requires |ready| > 0 || shuttingDown
      modifies this
      ensures calls == old(calls) + [GetCall]
      ensures shutdown <==> old(|ready|) == 0
      ensures shutdown ==> item == None && ready == old(ready) && processing == old(processing)
      ensures !shutdown ==> item == Some(old(ready)[0]) && ready == old(ready)[1..]
      ensures !shutdown ==> processing == old(processing) + {old(ready)[0]}
      ensures delayed == old(delayed) && requeues == old(requeues) && shuttingDown == old(shuttingDown)
    {
      calls := calls + [GetCall];
      if |ready| == 0 {
        item, shutdown := None, true;
      } else {
        item, shutdown := Some(ready[0]), false;
        processing := processing + {ready[0]};
        ready := ready[1..];
      }
    }

    method Done(x: T)
      modifies this
      ensures processing == old(processing) - {x} && calls == old(calls) + [DoneCall(x)]
      ensures ready == old(ready) && delayed == old(delayed)
      ensures requeues == old(requeues) && shuttingDown == old(shuttingDown)
    {
      processing := processing - {x};
      calls := calls + [DoneCall(x)];
    }

    method Forget(x: T)
      modifies this
      ensures requeues == old(requeues) - {x} && calls == old(calls) + [ForgetCall(x)]
      ensures ready == old(ready) && processing == old(processing)
      ensures delayed == old(delayed) && shuttingDown == old(shuttingDown)
    {
      requeues := requeues - {x};
      calls := calls + [ForgetCall(x)];
    }

    method AddRateLimited(x: T)
      modifies this
      ensures requeues == old(requeues)[x := old(Requeues(x)) + 1]
      ensures delayed == old(delayed) + [x] && calls == old(calls) + [AddRateLimitedCall(x)]
      ensures ready == old(ready) && processing == old(processing)
      ensures shuttingDown == old(shuttingDown)
    {
      requeues := requeues[x := Requeues(x) + 1];
      delayed := delayed + [x];
      calls := calls + [AddRateLimitedCall(x)];
    }

    method NumRequeues(x: T) returns (n: nat)
      modifies this
      ensures n == Requeues(x) && calls == old(calls) + [NumRequeuesCall(x)]
      ensures ready == old(ready) && processing == old(processing) && delayed == old(delayed)
      ensures requeues == old(requeues) && shuttingDown == old(shuttingDown)
    {
      n := Requeues(x);
      calls := calls + [NumRequeuesCall(x)];
    }

    method ShutDown()
      modifies this
      ensures shuttingDown && calls == old(calls)
      ensures ready == old(ready) && processing == old(processing)
      ensures delayed == old(delayed) && requeues == old(requeues)
    {
      shuttingDown := true;
    }
  }

  /** The call log entries of adding `items`, in order. */
  function AddCalls<T>(items: seq<T>): (r: seq<Call<T>>)
    ensures |r| == |items|
    ensures forall i :: 0 <= i < |items| ==> r[i] == AddCall(items[i])
  {
    if items == [] then [] else [AddCall(items[0])] + AddCalls(items[1..])
  }

  /** The queue was only added to: nothing checked out, delayed, counted or shut down changed. */
  twostate predicate OnlyAdded<T>(q: WorkQueue<T>, new items: seq<T>)
    reads q
  {
    && q.ready == old(q.ready) + items
    && q.calls == old(q.calls) + AddCalls(items)
    && q.processing == old(q.processing)
    && q.delayed == old(q.delayed)
    && q.requeues == old(q.requeues)
    && q.shuttingDown == old(q.shuttingDown)
  }

  /**
   * The counter and the delayed items after a handler settled `key`: either
   * requeued (counter plus one, re-admitted after a delay) or forgotten
   * (counter reset).
   */
  twostate predicate Settled<T>(q: WorkQueue<T>, key: T, requeue: bool)
    reads q
  {
    && q.requeues == (if requeue then old(q.requeues)[key := old(q.Requeues(key)) + 1] else old(q.requeues) - {key})
    && q.delayed == old(q.delayed) + (if requeue then [key] else [])
  }

  /** A requeue counter of the map `rq`, zero for an item never requeued (NumRequeues). */
  function Count<T>(rq: map<T, nat>, x: T): nat
  {
    if x in rq then rq[x] else 0
  }

  /** The counters after an item is settled: incremented when it is requeued, otherwise forgotten. */
  function Resettled<T>(rq: map<T, nat>, x: T, requeue: bool): map<T, nat>
  {
    if requeue then rq[x := Count(rq, x) + 1] else rq - {x}
  }

  /** A work queue's state as a value: the call log, the ready, checked-out and delayed items, and the counters. */
  datatype Snapshot<T> = Snapshot(calls: seq<Call<T>>, ready: seq<T>, processing: set<T>, requeues: map<T, nat>, delayed: seq<T>)

  /**
   * What a run of workers does to a queue: the calls it makes, the counters
   * it leaves, the items it requeues, the items it releases with Done, and
   * how many ready items it takes from the front.
   */
  datatype Pass<T> = Pass(calls: seq<Call<T>>, requeues: map<T, nat>, delayed: seq<T>, released: set<T>, handed: nat)

  /** The queue state after a pass. */
  function Apply<T>(st: Snapshot<T>, p: Pass<T>): Snapshot<T>
    requires p.handed <= |st.ready|
  {
    Snapshot(st.calls + p.calls, st.ready[p.handed..], st.processing - p.released, p.requeues, st.delayed + p.delayed)
  }

  /** One pass after another. */
  function Then<T>(a: Pass<T>, b: Pass<T>): Pass<T>
  {
    Pass(a.calls + b.calls, b.requeues, a.delayed + b.delayed, a.released + b.released, a.handed + b.handed)
  }

  /** Applying two passes in turn is applying the one pass they make together. */
  lemma ApplyThen<T>(st: Snapshot<T>, a: Pass<T>, b: Pass<T>)
    requires a.handed + b.handed <= |st.ready|
    ensures Apply(Apply(st, a), b) == Apply(st, Then(a, b))
  {
    assert st.ready[a.handed..][b.handed..] == st.ready[a.handed + b.handed..];
    assert (st.calls + a.calls) + b.calls == st.calls + (a.calls + b.calls);
    assert (st.delayed + a.delayed) + b.delayed == st.delayed + (a.delayed + b.delayed);
  }

  /** A pass that releases the first item, followed by one that releases the next ones it hands out, releases all it hands out. */
  lemma ThenReleasesPrefix<T>(a: Pass<T>, b: Pass<T>, items: seq<T>)
    requires items != [] && a.released == {items[0]} && a.handed == 1 && b.handed < |items|
    requires forall x :: x in b.released <==> x in items[1..][..b.handed]
    ensures forall x :: x in Then(a, b).released <==> x in items[..a.handed + b.handed]
  {
    assert items[..a.handed + b.handed] == [items[0]] + items[1..][..b.handed];
  }
}
