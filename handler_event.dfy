/**
 * handler_event.go: event kinds, queued events, the decoding of raw
 * notification payloads (with tombstone recovery), and the add / update /
 * delete adapters that turn notifications into queued events.
 *
 * The Go methods of *Handler are spread over handler_event.go and
 * handler_run.go; the handler class lives here with the adapters, and
 * module HandlerRun takes it as an explicit receiver.
 */
module HandlerEvent {

  import opened Kube
  import opened Queue
  import opened HandlerBuild

  /** eventType is a byte. */
  newtype EventType = x: int | 0 <= x < 256

  const UnknownEvent: EventType := 0
  const CreateEvent: EventType := 1
  const UpdateEvent: EventType := 2
  const DeleteEvent: EventType := 3

  /** A queued work item: the object's key and the kind of notification. */
  datatype Event = Event(key: string, eventType: EventType)

  /** The outcome of baseHandler as written, where a tombstone aborts the call. */
  datatype Decoded = Decoded(obj: KObject) | DecodeError(err: Error) | NilDereference

  const InvalidType := Message("error decoding object, invalid type")
  const InvalidTombstone := Message("error decoding object tombstone, invalid type")

  /**
   * baseHandler exactly as written: on the tombstone path the debug call
   * evaluates kobj.GetName() while kobj is still the nil result of the failed
   * assertion, so every tombstone aborts the call before it is unwrapped.
   */
  function BaseHandlerAsWritten(raw: Raw): (r: Decoded)
    ensures raw.Tombstone? <==> r.NilDereference?
  {
    match raw
    case Object(o) => Decoded(o)
    case Tombstone(_) => NilDereference
    case Other(_) => DecodeError(InvalidType)
  }

  /**
   * baseHandler with the debug log that dereferences nil elided: an object is
   * returned unchanged, a tombstone holding an object yields that object, and
   * anything else is rejected with the error of the branch it fails in.
   */
  function BaseHandler(raw: Raw): (r: Result<KObject>)
    ensures raw.Object? ==> r == Ok(raw.obj)
    ensures r.Ok? <==> raw.Object? || (raw.Tombstone? && raw.payload.Object?)
    ensures raw.Tombstone? && raw.payload.Object? ==> r == Ok(raw.payload.obj)
    ensures raw.Other? ==> r == Err(InvalidType)
    ensures raw.Tombstone? && !raw.payload.Object? ==> r == Err(InvalidTombstone)
  {
    match raw
    case Object(o) => Ok(o)
    case Tombstone(payload) =>
      if payload.Object? then Ok(payload.obj) else Err(InvalidTombstone)
    case Other(_) => Err(InvalidType)
  }

  /** The two decoders differ only on tombstones, which the written one cannot get past. */
  lemma TombstoneDefect(o: KObject)
    ensures BaseHandlerAsWritten(Tombstone(Object(o))) == NilDereference
    ensures BaseHandler(Tombstone(Object(o))) == Ok(o)
  {
  }

  lemma DecodersAgreeOffTombstones(raw: Raw)
    requires !raw.Tombstone?
    ensures BaseHandler(raw).Ok? <==> BaseHandlerAsWritten(raw).Decoded?
    ensures BaseHandler(raw).Ok? ==> BaseHandlerAsWritten(raw).obj == BaseHandler(raw).value
    ensures BaseHandler(raw).Err? ==> BaseHandlerAsWritten(raw) == DecodeError(BaseHandler(raw).error)
  {
  }

  /** The error enqueueWith wraps around a key-derivation failure. */
  function EnqueueError(obj: KObject, cause: Error): Error
  {
    Wrapped("failed to enqueue '" + obj.namespace + "/" + obj.name + "@" + obj.resourceVersion + "'", cause)
  }

  /** The events enqueueWith adds for an object: one keyed event, or none when no key can be derived. */
  function Enqueued(c: Cluster, t: EventType, obj: KObject): (r: seq<Event>)
    ensures |r| <= 1
    ensures |r| == 1 <==> c.keyOf(obj).Ok?
    ensures |r| == 1 ==> r[0] == Event(c.keyOf(obj).value, t)
  {
    match c.keyOf(obj)
    case Ok(key) => [Event(key, t)]
    case Err(_) => []
  }

  /** The events an add notification produces. */
  function AddEvents(c: Cluster, raw: Raw): (r: seq<Event>)
    ensures |r| <= 1
    ensures |r| == 1 <==> BaseHandler(raw).Ok? && c.keyOf(BaseHandler(raw).value).Ok?
    ensures |r| == 1 ==> r[0] == Event(c.keyOf(BaseHandler(raw).value).value, CreateEvent)
  {
    match BaseHandler(raw)
    case Ok(obj) => Enqueued(c, CreateEvent, obj)
    case Err(_) => []
  }

  /** The events an update notification produces under an update policy. */
  function UpdateEvents(c: Cluster, policy: (KObject, KObject) -> bool, prev: Raw, curr: Raw): (r: seq<Event>)
    ensures |r| <= 1
    ensures |r| == 1 <==>
      && BaseHandler(prev).Ok? && BaseHandler(curr).Ok?
      && policy(BaseHandler(prev).value, BaseHandler(curr).value)
      && c.keyOf(BaseHandler(curr).value).Ok?
    ensures |r| == 1 ==> r[0] == Event(c.keyOf(BaseHandler(curr).value).value, UpdateEvent)
  {
    match BaseHandler(prev)
    case Err(_) => []
    case Ok(prevObj) =>
      match BaseHandler(curr)
      case Err(_) => []
      case Ok(currObj) =>
        if !policy(prevObj, currObj) then [] else Enqueued(c, UpdateEvent, currObj)
  }

  /** The events a delete notification produces. */
  function DeleteEvents(c: Cluster, raw: Raw): (r: seq<Event>)
    ensures |r| <= 1
    ensures |r| == 1 <==> BaseHandler(raw).Ok? && c.keyOf(BaseHandler(raw).value).Ok?
    ensures |r| == 1 ==> r[0] == Event(c.keyOf(BaseHandler(raw).value).value, DeleteEvent)
  {
    match BaseHandler(raw)
    case Ok(obj) => Enqueued(c, DeleteEvent, obj)
    case Err(_) => []
  }

  /**
   * A delete notification that arrives as a tombstone still produces a delete
   * event under the evicted object's key.
   */
  lemma {:induction false} TombstoneDeleteKeepsKey(c: Cluster, o: KObject)
    requires c.keyOf(o).Ok?
    ensures DeleteEvents(c, Tombstone(Object(o))) == [Event(c.keyOf(o).value, DeleteEvent)]
  {
    assert BaseHandler(Tombstone(Object(o))) == Ok(o);
  }

  class Handler {
    const cluster: Cluster
    const updatePolicy: (KObject, KObject) -> bool
    const events: Callbacks
    const queue: WorkQueue<Event>
    var recorded: seq<KObject>  // objects the "synced" event was recorded for

    constructor (cluster: Cluster, updatePolicy: (KObject, KObject) -> bool, events: Callbacks)
      ensures this.cluster == cluster && this.updatePolicy == updatePolicy && this.events == events
      ensures fresh(queue) && queue.ready == [] && queue.requeues == map[] && queue.processing == {}
      ensures queue.delayed == [] && queue.calls == [] && !queue.shuttingDown && recorded == []
    {
      this.cluster := cluster;
      this.updatePolicy := updatePolicy;
      this.events := events;
      queue := new WorkQueue<Event>();
      recorded := [];
    }

    method EnqueueWith(t: EventType, obj: KObject) returns (err: Option<Error>)
      modifies queue
      ensures OnlyAdded(queue, Enqueued(cluster, t, obj))
      ensures err.None? <==> cluster.keyOf(obj).Ok?
      ensures err.Some? ==> err.value == EnqueueError(obj, cluster.keyOf(obj).error)
    {
      var key := cluster.keyOf(obj);
      if key.Err? {
        return Some(EnqueueError(obj, key.error));
      }
      queue.Add(Event(key.value, t));
      err := None;
    }

    method AddHandler(curr: Raw)
      modifies queue
      ensures OnlyAdded(queue, AddEvents(cluster, curr))
    {
      var currObj := BaseHandler(curr);
      if currObj.Err? {
        return;
      }
      var _ := EnqueueWith(CreateEvent, currObj.value);
    }

    method UpdateHandler(prev: Raw, curr: Raw)
      modifies queue
      ensures OnlyAdded(queue, UpdateEvents(cluster, updatePolicy, prev, curr))
    {
      var prevObj := BaseHandler(prev);
      if prevObj.Err? {
        return;
      }
      var currObj := BaseHandler(curr);
      if currObj.Err? {
        return;
      }
      if !updatePolicy(prevObj.value, currObj.value) {
        return;
      }
      var _ := EnqueueWith(UpdateEvent, currObj.value);
    }

    method DeleteHandler(curr: Raw)
      modifies queue
      ensures OnlyAdded(queue, DeleteEvents(cluster, curr))
    {
      var currObj := BaseHandler(curr);
      if currObj.Err? {
        return;
      }
      var _ := EnqueueWith(DeleteEvent, currObj.value);
    }
  }
}
