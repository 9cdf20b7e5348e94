/**
 * handler.go, the older generation of the handler: NewHandler's option
 * classification and validation, the event containers it queues, the
 * add / update / delete adapters with the default update policy, and its own
 * syncHandler / handleErr / processNextWorkItem / worker.
 */
module HandlerGo {

  import opened Kube
  import opened Queue
  import HandlerBuild
  import HandlerEvent
  import HandlerRun
  import Kontroller

  /** The dynamic type of an event container: *createEvent, *updateEvent or *deleteEvent. */
  datatype Variety = CreateVariety | UpdateVariety | DeleteVariety

  /** A queued event container (baseEvent behind one of the three pointer types). */
  class EventContainer {
    const variety: Variety
    const kind: string
    var key: string

    constructor (variety: Variety, kind: string)
      ensures this.variety == variety && this.kind == kind && key == ""
    {
      this.variety := variety;
      this.kind := kind;
      key := "";
    }

    method SetKey(k: string)
      modifies this
      ensures key == k
    {
      key := k;
    }
  }

  /** A kontrolerOption: the only one the options build sets the update policy. */
  datatype KontrolerOpt = UpdatePolicyOpt(policy: PolicyRef)

  /** The value of a handlerBuildContext of this generation. */
  datatype Context = Context(
    kind: Option<KindSpec>,
    informerOpts: seq<InformerOpt>,
    ktrlOpts: seq<KontrolerOpt>,
    eventOpts: seq<HandlerBuild.EventOption>)

  const EmptyContext := Context(None, [], [], [])

  /** handlerBuildContext: what the option closures append to while a handler is built. */
  class BuildContext {
    var kind: Option<KindSpec>
    var informerOpts: seq<InformerOpt>
    var ktrlOpts: seq<KontrolerOpt>
    var eventOpts: seq<HandlerBuild.EventOption>

    constructor ()
      ensures Value() == EmptyContext
    {
      kind, informerOpts, ktrlOpts, eventOpts := None, [], [], [];
    }

    function Value(): Context
      reads this
    {
      Context(kind, informerOpts, ktrlOpts, eventOpts)
    }
  }

  /**
   * The dynamic type of an Option as NewHandler's type switch sees it, with
   * what the option carries: the outcome of a kind option's closure, the
   * outcome of an informer-factory option's closure, a controller option, an
   * event option, or any other type (by its printed type name).
   */
  datatype Category =
    | KindOption(outcome: Result<KindSpec>)
    | InformerFactoryOption(informerOpts: Result<seq<InformerOpt>>)
    | KontrolerOption(ktrl: KontrolerOpt)
    | EventOpt(event: HandlerBuild.EventOption)
    | Unrecognised(typeName: string)

  /**
   * An Option: its category and the error its apply method returns. The
   * build context that the first loop applies options to is discarded, so
   * only that error is observable.
   */
  datatype Opt = Opt(category: Category, applyErr: Option<Error>)

  /**
   * The collaborators NewHandler wires the handler to: the cluster side of
   * the informer kind.Informer builds, and the outcomes of
   * informerFactoryOptions.apply and kontrolerOptions.apply, whose bodies are
   * not part of this model.
   */
  datatype Wiring = Wiring(
    cluster: Cluster,
    factoryApply: seq<Result<seq<InformerOpt>>> -> Result<seq<InformerOpt>>,
    ktrlApply: seq<KontrolerOpt> -> Option<Error>)

  const OnlyOneKind := Message("only one kind must be provided")
  const KindMissing := Message("kind must be provided")
  const NoEventHandler := Message("at least one event handler (On...) must be provided")

  function NotImplemented(typeName: string): Error
  {
    Message(typeName + " not implemented")
  }

  /** The first loop: opt.apply(ctx), stopping at the first error. */
  function RunApply(o: Opt, u: ()): HandlerBuild.Step<()>
  {
    HandlerBuild.Step(u, o.applyErr)
  }

  /** The options as sorted by the type switch: at most one kind, and three lists in order. */
  datatype Classified = Classified(
    kind: Option<Result<KindSpec>>,
    factory: seq<Result<seq<InformerOpt>>>,
    ktrl: seq<KontrolerOpt>,
    events: seq<HandlerBuild.EventOption>)

  const Unsorted := Classified(None, [], [], [])

  /** One case of the type switch. */
  function ClassifyStep(c: Classified, cat: Category): Result<Classified>
  {
    match cat
    case KindOption(k) => if c.kind.Some? then Err(OnlyOneKind) else Ok(c.(kind := Some(k)))
    case InformerFactoryOption(f) => Ok(c.(factory := c.factory + [f]))
    case KontrolerOption(o) => Ok(c.(ktrl := c.ktrl + [o]))
    case EventOpt(e) => Ok(c.(events := c.events + [e]))
    case Unrecognised(t) => Err(NotImplemented(t))
  }

  /** The second loop: the type switch over the options in order, stopping at the first error. */
  function Classify(opts: seq<Opt>): Result<Classified>
    decreases |opts|
  {
    if opts == [] then Ok(Unsorted)
    else
      match Classify(opts[..|opts| - 1])
      case Err(e) => Err(e)
      case Ok(c) => ClassifyStep(c, opts[|opts| - 1].category)
  }

  /** The number of kind options. */
  function CountKinds(opts: seq<Opt>): nat
    decreases |opts|
  {
    if opts == [] then 0
    else CountKinds(opts[..|opts| - 1]) + (if opts[|opts| - 1].category.KindOption? then 1 else 0)
  }

  /** The event options, in order. */
  function EventsOf(opts: seq<Opt>): seq<HandlerBuild.EventOption>
    decreases |opts|
  {
    if opts == [] then []
    else
      var last := opts[|opts| - 1].category;
      EventsOf(opts[..|opts| - 1]) + (if last.EventOpt? then [last.event] else [])
  }

  /** The outcome of the one kind option, when there is exactly one. */
  function KindOf(opts: seq<Opt>): Option<Result<KindSpec>>
    decreases |opts|
  {
    if opts == [] then None
    else if opts[|opts| - 1].category.KindOption? then Some(opts[|opts| - 1].category.outcome)
    else KindOf(opts[..|opts| - 1])
  }

  predicate AllRecognised(opts: seq<Opt>)
  {
    forall i :: 0 <= i < |opts| ==> !opts[i].category.Unrecognised?
  }

  predicate NoApplyError(opts: seq<Opt>)
  {
    forall i :: 0 <= i < |opts| ==> opts[i].applyErr.None?
  }

  /**
   * The classification succeeds exactly when there is at most one kind
   * option and every option has a recognised type; then the kind is present
   * exactly when there is one, and the event options are kept in order.
   */
  lemma {:induction false} ClassifyCharacterised(opts: seq<Opt>)
    ensures Classify(opts).Ok? <==> CountKinds(opts) <= 1 && AllRecognised(opts)
    ensures Classify(opts).Ok? ==>
      && (Classify(opts).value.kind.Some? <==> CountKinds(opts) == 1)
      && Classify(opts).value.kind == KindOf(opts)
      && Classify(opts).value.events == EventsOf(opts)
    decreases |opts|
  {
    if opts != [] {
      var init := opts[..|opts| - 1];
      ClassifyCharacterised(init);
      assert forall i :: 0 <= i < |init| ==> init[i] == opts[i];
      assert AllRecognised(opts) <==> AllRecognised(init) && !opts[|opts| - 1].category.Unrecognised?;
      if Classify(init).Ok? && CountKinds(init) == 0 {
        KindOfNone(init);
      }
    }
  }

  lemma {:induction false} KindOfNone(opts: seq<Opt>)
    requires CountKinds(opts) == 0
    ensures KindOf(opts) == None
    decreases |opts|
  {
    if opts != [] {
      KindOfNone(opts[..|opts| - 1]);
    }
  }

  /** Once the type switch has failed, later options do not change the error. */
  lemma {:induction false} ClassifyErrorPersists(opts: seq<Opt>, more: seq<Opt>)
    requires Classify(opts).Err?
    ensures Classify(opts + more) == Classify(opts)
    decreases |more|
  {
    if more == [] {
      assert opts + more == opts;
    } else {
      var init := more[..|more| - 1];
      ClassifyErrorPersists(opts, init);
      assert (opts + more)[..|opts + more| - 1] == opts + init;
    }
  }

  /** The options accepted before any component is built (handler.go lines 51 to 90). */
  datatype Validated = Validated(kind: KindSpec, sorted: Classified)

  function Validate(opts: seq<Opt>): Result<Validated>
  {
    var applied := HandlerBuild.ApplyAll(opts, (), RunApply);
    if applied.err.Some? then Err(applied.err.value)
    else
      match Classify(opts)
      case Err(e) => Err(e)
      case Ok(c) =>
        if c.kind.None? then Err(KindMissing)
        else if c.kind.value.Err? then Err(c.kind.value.error)
        else if c.events == [] then Err(NoEventHandler)
        else Ok(Validated(c.kind.value.value, c))
  }

  /** What a successful NewHandler builds, besides its fresh queue. */
  datatype Built = Built(kind: KindSpec, informerOpts: seq<InformerOpt>, events: HandlerBuild.Callbacks)

  /** NewHandler's first loop: apply each option in order and return the first error. */
  method ApplyEach(opts: seq<Opt>) returns (err: Option<Error>)
    ensures err == HandlerBuild.ApplyAll(opts, (), RunApply).err
  {
    var i := 0;
    while i < |opts|
      invariant 0 <= i <= |opts|
      invariant HandlerBuild.ApplyAll(opts[..i], (), RunApply) == HandlerBuild.Applied((), None, i)
    {
      HandlerBuild.ApplyAllSnoc(opts[..i], opts[i], (), RunApply);
      assert opts[..i + 1] == opts[..i] + [opts[i]];
      if opts[i].applyErr.Some? {
        HandlerBuild.LaterOptionsNotRun(opts[..i + 1], opts[i + 1..], (), RunApply);
        assert opts[..i + 1] + opts[i + 1..] == opts;
        return opts[i].applyErr;
      }
      i := i + 1;
    }
    assert opts[..i] == opts;
    err := None;
  }

  /**
   * NewHandler's second loop: the type switch, keeping the one kind option
   * and appending the other options to their lists, stopping at a second
   * kind or an unrecognised type.
   */
  method SortOptions(opts: seq<Opt>) returns (r: Result<Classified>)
    ensures r == Classify(opts)
  {
    var kindOpt: Option<Result<KindSpec>> := None;
    var factoryOpts: seq<Result<seq<InformerOpt>>> := [];
    var ktrlOpts: seq<KontrolerOpt> := [];
    var eventOpts: seq<HandlerBuild.EventOption> := [];
    var i := 0;
    while i < |opts|
      invariant 0 <= i <= |opts|
      invariant Classify(opts[..i]) == Ok(Classified(kindOpt, factoryOpts, ktrlOpts, eventOpts))
    {
      assert opts[..i + 1][..i] == opts[..i];
      var failure: Option<Error> := None;
      match opts[i].category {
        case KindOption(outcome) =>
          if kindOpt.Some? {
            failure := Some(OnlyOneKind);
          } else {
            kindOpt := Some(outcome);
          }
        case InformerFactoryOption(f) =>
          factoryOpts := factoryOpts + [f];
        case KontrolerOption(o) =>
          ktrlOpts := ktrlOpts + [o];
        case EventOpt(e) =>
          eventOpts := eventOpts + [e];
        case Unrecognised(t) =>
          failure := Some(NotImplemented(t));
      }
      if failure.Some? {
        assert Classify(opts[..i + 1]) == Err(failure.value);
        ClassifyErrorPersists(opts[..i + 1], opts[i + 1..]);
        assert opts[..i + 1] + opts[i + 1..] == opts;
        return Err(failure.value);
      }
      i := i + 1;
    }
    assert opts[..i] == opts;
    r := Ok(Classified(kindOpt, factoryOpts, ktrlOpts, eventOpts));
  }

  /**
   * NewHandler's outcome: validation, then the informer options, the
   * controller options, and the event options applied to an empty registry,
   * each stopping the construction at its error. The client lookup never
   * fails (Kontroller.Client).
   */
  function NewHandlerSpec(w: Wiring, opts: seq<Opt>): Result<Built>
  {
    match Validate(opts)
    case Err(e) => Err(e)
    case Ok(v) =>
      match w.factoryApply(v.sorted.factory)
      case Err(e) => Err(e)
      case Ok(informerOpts) =>
        if w.ktrlApply(v.sorted.ktrl).Some? then Err(w.ktrlApply(v.sorted.ktrl).value)
        else
          var ev := HandlerBuild.ApplyAll(v.sorted.events, HandlerBuild.NoCallbacks, HandlerBuild.RunEventOption);
          if ev.err.Some? then Err(ev.err.value) else Ok(Built(v.kind, informerOpts, ev.state))
  }

  /** The name segment NewHandler gives the controller's logger: "<apiVersion>/<name>". */
  function LoggerSegment(k: KindSpec): string
  {
    k.apiVersion + "/" + k.name
  }

  /** The first option whose apply fails decides the error, before any type is looked at. */
  lemma FirstApplyErrorReturned(w: Wiring, opts: seq<Opt>)
    requires HandlerBuild.ApplyAll(opts, (), RunApply).err.Some?
    ensures NewHandlerSpec(w, opts) == Err(HandlerBuild.ApplyAll(opts, (), RunApply).err.value)
  {
  }

  /**
   * A handler is built only from options none of whose apply fails, all of a
   * recognised type, with exactly one kind whose closure succeeds, and at
   * least one event option; its kind is that closure's kind.
   */
  lemma {:induction false} BuiltOnlyFromValidOptions(w: Wiring, opts: seq<Opt>)
    requires NewHandlerSpec(w, opts).Ok?
    ensures NoApplyError(opts)
    ensures AllRecognised(opts) && CountKinds(opts) == 1
    ensures KindOf(opts) == Some(Ok(NewHandlerSpec(w, opts).value.kind))
    ensures |EventsOf(opts)| >= 1
  {
    ClassifyCharacterised(opts);
    if !NoApplyError(opts) {
      var i :| 0 <= i < |opts| && opts[i].applyErr.Some?;
      ApplyErrorFound(opts, i);
      assert false;
    }
  }

  /** An option whose apply fails makes the first loop fail. */
  lemma {:induction false} ApplyErrorFound(opts: seq<Opt>, i: nat)
    requires i < |opts| && opts[i].applyErr.Some?
    ensures HandlerBuild.ApplyAll(opts, (), RunApply).err.Some?
    decreases |opts|
  {
    if i < |opts| - 1 {
      var init := opts[..|opts| - 1];
      assert init[i] == opts[i];
      ApplyErrorFound(init, i);
    }
  }

  /**
   * When every apply succeeds: a second kind option, an unrecognised option,
   * a missing kind and an empty list of event options are each rejected with
   * their own message.
   */
  lemma {:induction false} InvalidOptionsRejected(w: Wiring, opts: seq<Opt>)
    requires NoApplyError(opts)
    ensures CountKinds(opts) >= 2 ==> NewHandlerSpec(w, opts).Err?
    ensures !AllRecognised(opts) ==> NewHandlerSpec(w, opts).Err?
    ensures AllRecognised(opts) && CountKinds(opts) == 0 ==> NewHandlerSpec(w, opts) == Err(KindMissing)
    ensures AllRecognised(opts) && CountKinds(opts) == 1 && KindOf(opts).Some? && KindOf(opts).value.Ok? && EventsOf(opts) == [] ==>
      NewHandlerSpec(w, opts) == Err(NoEventHandler)
  {
    HandlerBuild.NoFailingOption(opts, (), RunApply);
    ClassifyCharacterised(opts);
  }

  /**
   * The option naming the second kind is the one rejected, whatever follows
   * it, when the options before it are recognised and hold exactly one kind
   * (an unrecognised option before it is rejected first, with its own error).
   */
  lemma {:induction false} SecondKindMessage(w: Wiring, pre: seq<Opt>, k2: Result<KindSpec>, more: seq<Opt>)
    requires CountKinds(pre) == 1 && AllRecognised(pre)
    ensures var opts := pre + [Opt(KindOption(k2), None)] + more;
      NoApplyError(opts) ==> NewHandlerSpec(w, opts) == Err(OnlyOneKind)
  {
    ClassifyCharacterised(pre);
    var upto := pre + [Opt(KindOption(k2), None)];
    assert upto[..|upto| - 1] == pre;
    assert Classify(upto) == Err(OnlyOneKind);
    ClassifyErrorPersists(upto, more);
    if NoApplyError(upto + more) {
      HandlerBuild.NoFailingOption(upto + more, (), RunApply);
    }
  }

  /** In particular, two leading kind options fail with "only one kind must be provided". */
  lemma TwoLeadingKinds(w: Wiring, k1: Result<KindSpec>, k2: Result<KindSpec>, more: seq<Opt>)
    ensures var opts := [Opt(KindOption(k1), None), Opt(KindOption(k2), None)] + more;
      NoApplyError(opts) ==> NewHandlerSpec(w, opts) == Err(OnlyOneKind)
  {
    var pre := [Opt(KindOption(k1), None)];
    assert pre[..0] == [];
    assert CountKinds(pre) == 1;
    SecondKindMessage(w, pre, k2, more);
    assert pre + [Opt(KindOption(k2), None)] + more == [Opt(KindOption(k1), None), Opt(KindOption(k2), None)] + more;
  }

  /** defaultUpdatePolicy: an update counts exactly when the resource version changed. */
  function DefaultUpdatePolicy(prev: KObject, curr: KObject): (r: bool)
    ensures r <==> prev.resourceVersion != curr.resourceVersion
  {
    prev.resourceVersion != curr.resourceVersion
  }

  /** The event type code of a container variety. */
  function TypeOf(v: Variety): HandlerEvent.EventType
  {
    match v
    case CreateVariety => HandlerEvent.CreateEvent
    case UpdateVariety => HandlerEvent.UpdateEvent
    case DeleteVariety => HandlerEvent.DeleteEvent
  }

  /** The callback slot a container variety selects. */
  function SlotOf(events: HandlerBuild.Callbacks, v: Variety): Option<Func>
  {
    match v
    case CreateVariety => events.create
    case UpdateVariety => events.update
    case DeleteVariety => events.delete
  }

  /** What syncHandler did: the error it returned and the callback it invoked. */
  datatype Outcome = Outcome(err: Option<Error>, invoked: Option<Func>)

  /**
   * syncHandler of this generation: split and lookup errors are returned
   * unwrapped, a missing object and an unset slot end processing with nil,
   * and the callback's error is returned.
   */
  function SyncHandler(c: Cluster, events: HandlerBuild.Callbacks, v: Variety, key: string): (r: Outcome)
    ensures c.split(key).Err? ==> r == Outcome(Some(c.split(key).error), None)
    ensures c.split(key).Ok? && c.lookup(c.split(key).value.namespace, c.split(key).value.name).NotFound? ==>
      r == Outcome(None, None)
    ensures c.split(key).Ok? && c.lookup(c.split(key).value.namespace, c.split(key).value.name).Failed? ==>
      r == Outcome(Some(c.lookup(c.split(key).value.namespace, c.split(key).value.name).err), None)
    ensures SlotOf(events, v).None? ==> r.invoked.None?
    ensures r.invoked.Some? <==>
      && c.split(key).Ok?
      && c.lookup(c.split(key).value.namespace, c.split(key).value.name).Found?
      && SlotOf(events, v).Some?
    ensures r.invoked.Some? ==>
      && r.invoked == SlotOf(events, v)
      && r.err == c.invoke(r.invoked.value, key, c.lookup(c.split(key).value.namespace, c.split(key).value.name).obj)
  {
    match c.split(key)
    case Err(err) => Outcome(Some(err), None)
    case Ok(p) =>
      match c.lookup(p.namespace, p.name)
      case NotFound(_) => Outcome(None, None)
      case Failed(err) => Outcome(Some(err), None)
      case Found(obj) =>
        match SlotOf(events, v)
        case None => Outcome(None, None)
        case Some(f) => Outcome(c.invoke(f, key, obj), Some(f))
  }

  /**
   * The two generations dispatch alike against the corrected newer sync:
   * the same callback is invoked, with the same error, except that the
   * newer one wraps split and lookup errors. Against the newer sync as
   * written they differ on a found object whose slot is unset: handler.go
   * skips it with nil, handler_run.go calls the nil slot.
   */
  lemma {:induction false} DispatchAgreesWithHandlerRun(c: Cluster, events: HandlerBuild.Callbacks, v: Variety, key: string)
    ensures var a := SyncHandler(c, events, v, key);
      var b := HandlerRun.SyncHandlerGuarded(c, events, HandlerEvent.Event(key, TypeOf(v)));
      && a.invoked == b.invoked
      && (a.err.None? <==> b.err.None?)
      && (b.invoked.Some? ==> a.err == b.err)
      && (b.invoked.None? && b.err.Some? ==> b.err == Some(HandlerRun.SyncError(a.err.value)))
    ensures var a := SyncHandler(c, events, v, key);
      var written := HandlerRun.SyncHandler(c, events, HandlerEvent.Event(key, TypeOf(v)));
      && (written.NilCallback? <==>
           && c.split(key).Ok?
           && c.lookup(c.split(key).value.namespace, c.split(key).value.name).Found?
           && SlotOf(events, v).None?)
      && (written.NilCallback? ==> a == Outcome(None, None))
      && (written.Synced? ==> written == HandlerRun.SyncHandlerGuarded(c, events, HandlerEvent.Event(key, TypeOf(v))))
  {
    var e := HandlerEvent.Event(key, TypeOf(v));
    assert HandlerRun.SlotFor(events, e.eventType) == Some(SlotOf(events, v));
  }

  /**
   * The queue gained exactly one fresh container per event of `evs`, of the
   * given variety and kind, carrying that event's key, and nothing else changed.
   */
  twostate predicate Admitted(q: WorkQueue<EventContainer>, evs: seq<HandlerEvent.Event>, variety: Variety, kind: string)
    reads q, q.ready
  {
    && |q.ready| == |old(q.ready)| + |evs|
    && OnlyAdded(q, q.ready[|old(q.ready)|..])
    && forall i :: 0 <= i < |evs| ==>
      && fresh(q.ready[|old(q.ready)| + i])
      && q.ready[|old(q.ready)| + i].variety == variety
      && q.ready[|old(q.ready)| + i].kind == kind
      && q.ready[|old(q.ready)| + i].key == evs[i].key
  }

  class Handler {
    const ktr: Kontroller.Kontroller
    const cluster: Cluster
    const kind: KindSpec
    const informerOpts: seq<InformerOpt>
    const events: HandlerBuild.Callbacks
    const queue: WorkQueue<EventContainer>

    constructor (ktr: Kontroller.Kontroller, cluster: Cluster, kind: KindSpec,
                 informerOpts: seq<InformerOpt>, events: HandlerBuild.Callbacks)
      ensures this.ktr == ktr && this.cluster == cluster && this.kind == kind
      ensures this.informerOpts == informerOpts && this.events == events
      ensures fresh(queue) && queue.ready == [] && queue.processing == {} && queue.delayed == []
      ensures queue.requeues == map[] && queue.calls == [] && !queue.shuttingDown
    {
      this.ktr := ktr;
      this.cluster := cluster;
      this.kind := kind;
      this.informerOpts := informerOpts;
      this.events := events;
      queue := new WorkQueue<EventContainer>();
    }

    /** enquueWith: drop the container silently when no key can be derived; else set its key, then add it. */
    method EnqueueWith(c: EventContainer, obj: KObject)
      modifies queue, c
      ensures cluster.keyOf(obj).Err? ==> OnlyAdded(queue, []) && c.key == old(c.key)
      ensures cluster.keyOf(obj).Ok? ==> OnlyAdded(queue, [c]) && c.key == cluster.keyOf(obj).value
    {
      var key := cluster.keyOf(obj);
      if key.Err? {
        return;
      }
      c.SetKey(key.value);
      queue.Add(c);
    }

    /** The generic add adapter, for the notifications of kind `kind`. */
    method AddAdapter(raw: Raw, kind: string)
      modifies queue
      ensures Admitted(queue, HandlerEvent.AddEvents(cluster, raw), CreateVariety, kind)
    {
      var obj := HandlerEvent.BaseHandler(raw);
      if obj.Err? {
        return;
      }
      var c := new EventContainer(CreateVariety, kind);
      EnqueueWith(c, obj.value);
    }

    /** The generic update adapter: both snapshots are decoded, then the default policy decides. */
    method UpdateAdapter(prev: Raw, curr: Raw, kind: string)
      modifies queue
      ensures Admitted(queue, HandlerEvent.UpdateEvents(cluster, DefaultUpdatePolicy, prev, curr), UpdateVariety, kind)
    {
      var prevObj := HandlerEvent.BaseHandler(prev);
      var currObj := HandlerEvent.BaseHandler(curr);
      if prevObj.Err? || currObj.Err? {
        return;
      }
      if DefaultUpdatePolicy(prevObj.value, currObj.value) {
        var c := new EventContainer(UpdateVariety, kind);
        EnqueueWith(c, currObj.value);
      }
    }

    /** The generic delete adapter. */
    method DeleteAdapter(raw: Raw, kind: string)
      modifies queue
      ensures Admitted(queue, HandlerEvent.DeleteEvents(cluster, raw), DeleteVariety, kind)
    {
      var obj := HandlerEvent.BaseHandler(raw);
      if obj.Err? {
        return;
      }
      var c := new EventContainer(DeleteVariety, kind);
      EnqueueWith(c, obj.value);
    }

    /** handleErr of this generation: the same Forget / AddRateLimited / Forget rule as handler_run.go. */
    method HandleErr(err: Option<Error>, key: EventContainer)
      modifies queue
      ensures queue.calls == old(queue.calls) + HandlerRun.HandleErrCalls(err.Some?, old(queue.Requeues(key)), key)
      ensures Settled(queue, key, err.Some? && old(queue.Requeues(key)) < HandlerRun.MaxRequeues)
      ensures queue.ready == old(queue.ready) && queue.processing == old(queue.processing)
      ensures queue.shuttingDown == old(queue.shuttingDown)
      ensures old(queue.Bounded()) ==> queue.Bounded()
    {
      if err.None? {
        queue.Forget(key);
        return;
      }
      var n := queue.NumRequeues(key);
      if n < HandlerRun.MaxRequeues {
        queue.AddRateLimited(key);
        return;
      }
      queue.Forget(key);
    }

    /**
     * processNextWorkItem: on shutdown report false with only the Get made;
     * otherwise sync the container, settle it with handleErr and mark it
     * Done (the deferred call) exactly once.
     */
    method ProcessNextWorkItem() returns (more: bool)
      requires |queue.ready| > 0 || queue.shuttingDown
      modifies queue
      ensures more <==> old(|queue.ready|) > 0
      ensures queue.shuttingDown == old(queue.shuttingDown)
      ensures !more ==> queue.calls == old(queue.calls) + [GetCall]
      ensures !more ==> queue.ready == old(queue.ready) && queue.processing == old(queue.processing)
      ensures !more ==> queue.requeues == old(queue.requeues) && queue.delayed == old(queue.delayed)
      ensures more ==>
        var e := old(queue.ready)[0];
        var s := SyncHandler(cluster, events, e.variety, e.key);
        var n := old(queue.Requeues(e));
        && queue.ready == old(queue.ready)[1..]
        && queue.processing == old(queue.processing) - {e}
        && queue.calls == old(queue.calls) + [GetCall] + HandlerRun.HandleErrCalls(s.err.Some?, n, e) + [DoneCall(e)]
        && Settled(queue, e, s.err.Some? && n < HandlerRun.MaxRequeues)
      ensures queue.State() == Apply(old(queue.State()), NextItem(cluster, events, old(queue.ready), old(queue.requeues)))
      ensures old(queue.Bounded()) ==> queue.Bounded()
    {
      var item, shutdown := queue.Get();
      if shutdown {
        return false;
      }
      var e := item.value;
      var s := SyncHandler(cluster, events, e.variety, e.key);
      HandleErr(s.err, e);
      queue.Done(e);
      more := true;
    }

    /**
     * worker: process containers until the queue reports shutdown. Its effect
     * is `Drain` of the ready containers: each one is handed out, synced,
     * settled by handleErr and released with Done, in order, and then the
     * Get that reports shutdown ends the loop.
     */
    method Worker()
      requires queue.shuttingDown
      modifies queue
      ensures queue.State() == Apply(old(queue.State()), Drain(cluster, events, old(queue.ready), old(queue.requeues)))
      ensures queue.ready == [] && queue.shuttingDown
      ensures |queue.calls| >= |old(queue.calls)| + 3 * |old(queue.ready)| + 1
      ensures forall x :: x in old(queue.ready) ==> DoneCall(x) in queue.calls[|old(queue.calls)|..] && x !in queue.processing
      ensures old(queue.Bounded()) ==> queue.Bounded()
    {
      ghost var s0 := queue.State();
      ghost var d0 := Drain(cluster, events, queue.ready, queue.requeues);
      DrainedQueue(cluster, events, s0);
      ghost var bounded := queue.Bounded();
      var more := true;
      while more
        invariant queue.shuttingDown
        invariant more ==> Apply(queue.State(), Drain(cluster, events, queue.ready, queue.requeues)) == Apply(s0, d0)
        invariant !more ==> queue.State() == Apply(s0, d0)
        invariant bounded ==> queue.Bounded()
        decreases |queue.ready| + (if more then 1 else 0)
      {
        ghost var st := queue.State();
        more := ProcessNextWorkItem();
        if more {
          DrainAdvances(cluster, events, st);
        }
      }
    }
  }

  /**
   * What one processNextWorkItem of this generation does to the ready
   * containers `items` with the counters `rq`: on an empty queue only the Get
   * that reports shutdown; otherwise the head container is taken, synced,
   * settled by handleErr and released by the deferred Done.
   */
  function NextItem(c: Cluster, events: HandlerBuild.Callbacks, items: seq<EventContainer>, rq: map<EventContainer, nat>): (r: Pass<EventContainer>)
    reads items
    ensures r.handed == (if items == [] then 0 else 1)
  {
    if items == [] then Pass([GetCall], rq, [], {}, 0)
    else
      var e := items[0];
      var failed := SyncHandler(c, events, e.variety, e.key).err.Some?;
      var n := Count(rq, e);
      var requeue := failed && n < HandlerRun.MaxRequeues;
      Pass([GetCall] + HandlerRun.HandleErrCalls(failed, n, e) + [DoneCall(e)], Resettled(rq, e, requeue),
        if requeue then [e] else [], {e}, 1)
  }

  /** A worker's run over the ready containers of a shutting-down queue: one processNextWorkItem per container, then the last Get. */
  function Drain(c: Cluster, events: HandlerBuild.Callbacks, items: seq<EventContainer>, rq: map<EventContainer, nat>): (r: Pass<EventContainer>)
    reads items
    ensures r.handed == |items|
    decreases |items|
  {
    var first := NextItem(c, events, items, rq);
    if items == [] then first
    else Then(first, Drain(c, events, items[1..], first.requeues))
  }

  /** Processing the first container and then draining the rest has the effect of draining the whole. */
  lemma DrainAdvances(c: Cluster, events: HandlerBuild.Callbacks, st: Snapshot<EventContainer>)
    requires st.ready != []
    ensures var st' := Apply(st, NextItem(c, events, st.ready, st.requeues));
      Apply(st', Drain(c, events, st'.ready, st'.requeues)) == Apply(st, Drain(c, events, st.ready, st.requeues))
  {
    var first := NextItem(c, events, st.ready, st.requeues);
    var st' := Apply(st, first);
    assert st'.ready == st.ready[1..];
    var rest := Drain(c, events, st'.ready, st'.requeues);
    assert Drain(c, events, st.ready, st.requeues) == Then(first, rest);
    ApplyThen(st, first, rest);
  }

  /**
   * The queue a drain leaves: nothing ready, at least three new calls per
   * container plus the last Get, and every container released with a Done.
   */
  lemma DrainedQueue(c: Cluster, events: HandlerBuild.Callbacks, st: Snapshot<EventContainer>)
    ensures var after := Apply(st, Drain(c, events, st.ready, st.requeues));
      && after.ready == []
      && |after.calls| >= |st.calls| + 3 * |st.ready| + 1
      && forall x :: x in st.ready ==> DoneCall(x) in after.calls[|st.calls|..] && x !in after.processing
  {
    var p := Drain(c, events, st.ready, st.requeues);
    DrainReleasesEach(c, events, st.ready, st.requeues);
    DrainEnds(c, events, st.ready, st.requeues);
    assert Apply(st, p).calls[|st.calls|..] == p.calls;
  }

  /** A drain releases every container it is given, each with a Done, and only those. */
  lemma {:induction false} DrainReleasesEach(c: Cluster, events: HandlerBuild.Callbacks, items: seq<EventContainer>, rq: map<EventContainer, nat>)
    ensures var p := Drain(c, events, items, rq);
      && (forall x :: x in p.released <==> x in items)
      && (forall x :: x in items ==> DoneCall(x) in p.calls)
    decreases |items|
  {
    if items != [] {
      var first := NextItem(c, events, items, rq);
      DrainReleasesEach(c, events, items[1..], first.requeues);
      assert DoneCall(items[0]) in first.calls;
      assert forall x :: x in items <==> x == items[0] || x in items[1..];
    }
  }

  /** A drain makes at least three calls per container and ends with the Get that reports shutdown. */
  lemma {:induction false} DrainEnds(c: Cluster, events: HandlerBuild.Callbacks, items: seq<EventContainer>, rq: map<EventContainer, nat>)
    ensures var p := Drain(c, events, items, rq);
      |p.calls| >= 3 * |items| + 1 && p.calls[|p.calls| - 1] == GetCall
    decreases |items|
  {
    if items != [] {
      var first := NextItem(c, events, items, rq);
      DrainEnds(c, events, items[1..], first.requeues);
      assert |first.calls| >= 3;
    }
  }

  /** An update that keeps the resource version is never queued by this generation. */
  lemma {:induction false} SameVersionIgnored(c: Cluster, prev: Raw, curr: Raw)
    requires HandlerEvent.BaseHandler(prev).Ok? && HandlerEvent.BaseHandler(curr).Ok?
    requires HandlerEvent.BaseHandler(prev).value.resourceVersion == HandlerEvent.BaseHandler(curr).value.resourceVersion
    ensures HandlerEvent.UpdateEvents(c, DefaultUpdatePolicy, prev, curr) == []
  {
    var r := HandlerEvent.UpdateEvents(c, DefaultUpdatePolicy, prev, curr);
    assert |r| != 1;
  }

  /**
   * NewHandler: apply every option (first error aborts), classify them by
   * type, check the kind and the event options, rename the controller's
   * logger, then build the informer, apply the controller and event options,
   * and create the queue. The handler shares the controller (copy returns it
   * unchanged), so the rename is visible through both, and it happens before
   * the later steps can fail.
   */
  method NewHandler(k: Kontroller.Kontroller, w: Wiring, opts: seq<Opt>) returns (h: Handler?, err: Option<Error>)
    modifies k
    ensures err.None? <==> NewHandlerSpec(w, opts).Ok?
    ensures err.Some? ==> h == null && err.value == NewHandlerSpec(w, opts).error
    ensures err.None? ==>
      var b := NewHandlerSpec(w, opts).value;
      && h != null && fresh(h) && fresh(h.queue)
      && h.ktr == k && h.cluster == w.cluster
      && h.kind == b.kind && h.informerOpts == b.informerOpts && h.events == b.events
      && h.queue.ready == [] && h.queue.calls == [] && h.queue.requeues == map[]
      && h.queue.processing == {} && h.queue.delayed == [] && !h.queue.shuttingDown
    ensures Validate(opts).Ok? ==> k.logger == Named(old(k.logger), LoggerSegment(Validate(opts).value.kind))
    ensures Validate(opts).Err? ==> k.logger == old(k.logger)
    ensures k.name == old(k.name) && k.kube == old(k.kube) && k.handlers == old(k.handlers)
  {
    var applyErr := ApplyEach(opts);
    if applyErr.Some? {
      return null, applyErr;
    }
    var sorted := SortOptions(opts);
    if sorted.Err? {
      return null, Some(sorted.error);
    }
    var kindOpt, factoryOpts, ktrlOpts, eventOpts := sorted.value.kind, sorted.value.factory, sorted.value.ktrl, sorted.value.events;

    if kindOpt.None? {
      return null, Some(KindMissing);
    }
    var kindResult := kindOpt.value;
    if kindResult.Err? {
      return null, Some(kindResult.error);
    }
    var kind := kindResult.value;
    if |eventOpts| == 0 {
      return null, Some(NoEventHandler);
    }

    // handler.ktr is k.copy(), which is k itself; the rename goes through it
    assert Validate(opts) == Ok(Validated(kind, Classified(kindOpt, factoryOpts, ktrlOpts, eventOpts)));
    k.logger := Named(k.logger, LoggerSegment(kind));
    var _ := k.Client(kind.clientType);

    var informerOpts := w.factoryApply(factoryOpts);
    if informerOpts.Err? {
      return null, Some(informerOpts.error);
    }
    var ktrlErr := w.ktrlApply(ktrlOpts);
    if ktrlErr.Some? {
      return null, ktrlErr;
    }
    var registry := new HandlerBuild.EventRegistry();
    var eventErr := HandlerBuild.ApplyEventOptions(eventOpts, registry);
    if eventErr.Some? {
      return null, eventErr;
    }
    h := new Handler(k.Copy(), w.cluster, kind, informerOpts.value, registry.Value());
    err := None;
  }
}
