# kolibri reconciliation engine, modelled in Dafny

kolibri is a small Go framework for writing Kubernetes controllers. A
controller (`Kontroller`) owns handlers; each handler watches one kind of
object through an informer, turns add/update/delete notifications into
`event{key, type}` items on a rate-limited work queue, and a worker pops
items, looks the object up again and calls the create, change or delete
callback the user registered, re-queueing a failing item at most ten times.
Handlers are configured by functional options that are applied in order and
stop at the first error. Alongside sit the context record handed to
callbacks (`Kontext`), a logrus back-end for the logger, and the `Stack`
log field.

The repository holds two code generations that do not compile together;
each Go file is its own Dafny module:

- `kube.dfy` (`Kube`): the collaborator values — objects, tombstones,
  errors, informer lookups, and the cluster side (`cache.MetaNamespaceKeyFunc`,
  `cache.SplitMetaNamespaceKey`, `informer.Get`, the user callbacks) as
  function-valued parameters.
- `queue.dfy` (`Queue`): client-go's rate-limiting work queue as an abstract
  state — the ready list, the checked-out set, the per-key requeue counter,
  the delayed (rate-limited) items, the shutdown flag and a log of the calls
  made on it. `AddRateLimited` is assumed to increment the counter and
  `Forget` to reset it. This is a collaborator, not part of the repository.
- `handler_event.dfy` (`HandlerEvent`), `handler_run.dfy` (`HandlerRun`),
  `handler_build.dfy` (`HandlerBuild`), `handler_options.dfy`
  (`HandlerOptions`): the newer generation — event codes, `baseHandler`,
  the enqueueing adapters, `syncHandler`/`handleErr`/`processNextWorkItem`/
  `worker`, the event registry and the option closures.
- `handler_go.dfy` (`HandlerGo`): `handler.go` — `NewHandler`'s option
  classification and validation, the closure adapters, `defaultUpdatePolicy`,
  and its own `syncHandler`/`handleErr`/`processNextWorkItem`/`worker`.
- `handler_events.dfy` (`HandlerEvents`), `handler_kubeobj.dfy`
  (`HandlerKubeobj`): the direct-callback and closure-returning option
  generations.
- `kontroller.dfy` (`Kontroller`), `kontext.dfy` (`Kontext`),
  `klogrus.dfy` (`KLogrus`), `log_field.dfy` (`LogField`).

State the Go code changes in place is modelled imperatively: the handlers,
the event registry, the build context, the controller and the
`ResourceEventHandlerFuncs` are classes whose methods are specified against
pure functions (`AddEvents`, `SyncHandler`, `HandleErrCalls`, `ApplyAll`,
`ApplyOption`, `Collect`, `Trimmed`, …), and the loops (`worker`, the option
loops of `NewHandler`, `eventOptions.apply`, `handlerOptions.apply`,
logrus `With`, `Stack`) are `while` loops with invariants.

Where the code and its description disagree, the model follows the code:

- A NotFound lookup ends `syncHandler` with nil for every event type,
  deletions included, so a delete callback never runs once the informer's
  cache has dropped the object.
- `Kontroller.updatePolicy` is a stub that rejects every update, so the
  `OnChange` wrapper of `handler_events.go` never calls the user function
  (`HandlerEvents.ChangeEffects`).
- `Kontroller.copy` returns the same pointer, so `NewHandler` renames the
  logger of the caller's controller itself; the rename happens once the
  options validate, even if the informer, controller or event options fail
  later (`HandlerGo.NewHandler`).
- In `handler.go`, `handlerBuildContext` holds a `ktrlOpts` field that the
  option closures of `handler_options.go` append to; those closures are
  therefore modelled on that build context (`HandlerGo.BuildContext`).

## Model

| member | source | states |
|---|---|---|
| HandlerEvent.BaseHandlerAsWritten | handler_event.go:31-48 | baseHandler as written: a tombstone reaches the nil dereference at line 40 exactly when the value is a tombstone, whatever its payload |
| HandlerEvent.TombstoneDefect | handler_event.go:40 | a tombstone around a valid object aborts as written, while the intended decoder recovers that object |
| HandlerEvent.BaseHandler | handler_event.go:31-48 | an object is returned unchanged; a tombstone whose payload is an object yields that object; anything else fails with "invalid type", a tombstone with another payload with "tombstone, invalid type"; success exactly in the first two cases |
| HandlerEvent.DecodersAgreeOffTombstones | handler_event.go:35-39 | on every value that is not a tombstone the as-written and the corrected decoder agree, errors included |
| HandlerEvent.Enqueued | handler_event.go:22-29 | at most one event, present exactly when the key can be derived, carrying that key and the event type |
| HandlerEvent.Handler.constructor | handler.go:26-35 | a handler starts with an empty, running queue and nothing recorded |
| HandlerEvent.Handler.EnqueueWith | handler_event.go:22-29 | the queue gains exactly `Enqueued(...)` and nothing else changes; nil error exactly when the key is derived, otherwise the wrapped key error |
| HandlerEvent.AddEvents | handler_event.go:50-60 | one create event keyed from the decoded object exactly when decoding and key derivation succeed, none otherwise |
| HandlerEvent.Handler.AddHandler | handler_event.go:50-60 | the queue gains exactly `AddEvents(curr)` |
| HandlerEvent.UpdateEvents | handler_event.go:62-82 | one update event keyed from the new object exactly when both snapshots decode, the policy accepts, and the key is derived |
| HandlerEvent.Handler.UpdateHandler | handler_event.go:62-82 | the queue gains exactly `UpdateEvents(policy, old, new)` |
| HandlerEvent.DeleteEvents | handler_event.go:84-94 | one delete event keyed from the decoded object exactly when decoding and key derivation succeed |
| HandlerEvent.Handler.DeleteHandler | handler_event.go:84-94 | the queue gains exactly `DeleteEvents(curr)` |
| HandlerEvent.TombstoneDeleteKeepsKey | handler_event.go:41-47 | deleting through a tombstone enqueues the delete event of the wrapped object's key |
| HandlerRun.SlotFor | handler_run.go:71-82 | create, update and delete select their own callback slot; every other type selects none |
| HandlerRun.SyncHandler | handler_run.go:51-96 | as written: a split error is wrapped and returned; NotFound is skipped with nil; another lookup error is wrapped; an unknown type is skipped; an unset slot of a known type is called (NilCallback) exactly when the object was found; an invoked callback is the selected one; an object is recorded only after a successful call |
| HandlerRun.UnsetSlotPanics | handler_run.go:84 | with only a create callback registered, an update of a present object calls the nil slot as written, and is skipped once guarded |
| HandlerRun.SyncHandlerGuarded | handler_run.go:84-95 | the corrected sync never calls a nil slot, agrees with the as-written one wherever that does not panic, and skips with nil instead |
| HandlerRun.CallbackOutcome | handler_run.go:84-95 | a found object with a set slot invokes exactly that callback, returns its error unchanged, and records a "synced" event only on success and only for runtime objects |
| HandlerRun.VanishedObjectSkipped | handler_run.go:59-66 | an object that no longer exists ends processing with nil and no callback, for every event type |
| HandlerRun.InlineRetryIsHandleErr | handler_run.go:122-127 | the inline retry decision of processNextWorkItem makes the same queue calls as handleErr |
| HandlerRun.NextCount | handler_run.go:98-112 | the requeue counter after handleErr is reset to 0 on success or once it reached 10, and otherwise grows by one |
| HandlerRun.HandleErrCounts | handler_run.go:98-112 | the counter that the queue calls of handleErr leave behind is `NextCount` |
| HandlerRun.CountNeverExceedsBound | handler_run.go:104-111 | under the increment assumption, any run of successes and failures from a counter within 10 keeps it within 10 |
| HandlerRun.Failures | handler_run.go:104-111 | a run of k failed attempts |
| HandlerRun.ConsecutiveFailuresCount | handler_run.go:104-106 | k consecutive failures from n, with n + k at most 10, leave the counter at n + k |
| HandlerRun.EleventhFailureForgets | handler_run.go:109-111 | after ten failures the next failure only asks NumRequeues and calls Forget, resetting the counter |
| HandlerRun.CountAfterAttemptsSnoc | handler_run.go:98-112 | the counter after one more attempt is `NextCount` of the counter before it |
| HandlerRun.HandleErr | handler_run.go:98-112 | the calls made are `HandleErrCalls`: Forget on nil; NumRequeues then AddRateLimited below 10; NumRequeues then Forget otherwise; the counter and delayed list change accordingly, the ready list and checked-out set do not |
| HandlerRun.ProcessNextWorkItem | handler_run.go:113-129 | false with only a Get call on shutdown; otherwise the head item is taken and dispatched by the as-written sync: an unset slot panics, leaving only the deferred Done after the Get; any other outcome agrees with the guarded sync and is retried by the inline rule, released by exactly one Done, and its synced object recorded; the whole effect is `NextItem` applied to the queue; the counter bound is kept |
| HandlerRun.NextItem | handler_run.go:113-129 | one processNextWorkItem as a value: a Get only on an empty queue; otherwise the head item is handed out, and either its nil callback panics with only the deferred Done, or the inline retry calls, the settled counter, the requeue and the Done follow, with the synced object recorded |
| HandlerRun.Drain | handler_run.go:130-133 | the worker loop as a value: processNextWorkItem over the ready items until one panics or the last Get reports shutdown; every item is handed out unless there is a panic, which stops after at least one |
| HandlerRun.DrainAdvances | handler_run.go:130-133 | processing the head item and then draining the rest has exactly the effect of draining the whole, on the queue, the recorded objects and the panic flag |
| HandlerRun.DrainReleasesHanded | handler_run.go:113-133 | exactly the items a drain hands out are released |
| HandlerRun.DrainReleasesEach | handler_run.go:113-133 | exactly the items a drain hands out are released, and each of them has a Done among the drain's calls |
| HandlerRun.DrainEnds | handler_run.go:113-133 | without a panic a drain makes at least three calls per item and ends with the Get that reports shutdown; with one it ends with the Done of the last item handed out, whose callback is nil |
| HandlerRun.DrainKeepsBound | handler_run.go:122-127 | a drain started with every counter within 10 leaves every counter within 10 |
| HandlerRun.DrainedQueue | handler_run.go:113-133 | the queue a drain leaves: empty, with at least three new calls per item plus the last Get, without a panic; ending with the Done of an item whose callback is nil with one |
| HandlerRun.DrainedQueueReleases | handler_run.go:113-133 | every item a drain hands out has a Done among the new calls and is no longer checked out |
| HandlerRun.Worker | handler_run.go:130-133 | once the queue is shutting down, the queue state, the recorded objects and the panic flag are exactly `Drain` of the ready items: each item in order is handed out, synced, retried by the inline rule and released with Done, until the first nil callback stops the loop (its Done is the last call) or the last Get reports shutdown with the queue empty; every item handed out has a Done among the new calls and is no longer checked out; the counter bound is kept |
| HandlerBuild.RunEventOption | handler_options.go:62-68 | a registration succeeds exactly when its slot is empty, then holds its function; a second one fails and keeps the first; other slots never change |
| HandlerBuild.EventRegistry.constructor | handler_build.go:23-27 | the registry starts with its three slots empty |
| HandlerBuild.EventRegistry.Run | handler_options.go:62-106 | running one event option on the registry is `RunEventOption` on its value |
| HandlerBuild.ApplyAll | handler_build.go:57-65 | in-order application runs every option when none fails and stops right after the first failure otherwise |
| HandlerBuild.ApplyAllSnoc | handler_build.go:57-65 | one more option runs only when the prefix succeeded, on the prefix's state |
| HandlerBuild.NoFailingOption | handler_build.go:50 | when every option succeeds, all run and nil is returned |
| HandlerBuild.ApplyNone | handler_build.go:43-51 | applying no option returns nil and leaves the state unchanged |
| HandlerBuild.FirstErrorStops | handler_build.go:44-49 | the error returned is the first failing option's, on the state the options before it left |
| HandlerBuild.LaterOptionsNotRun | handler_build.go:44-49 | options after the first failure are not run: appending more changes nothing |
| HandlerBuild.ApplyEventOptions | handler_build.go:57-65 | eventOptions.apply leaves the registry and returns the error that `ApplyAll` prescribes |
| HandlerBuild.ApplyHandlerOptions | handler_build.go:43-51 | handlerOptions.apply yields the handler and the error that `ApplyAll` prescribes |
| HandlerOptions.OnAllNamespaces | handler_options.go:10 | OnAllNamespaces is OnNamespace("") |
| HandlerOptions.ApplyOption | handler_options.go:14-109 | an option's closure fails exactly on a nil argument or a config namespace error, leaving the context unchanged, and otherwise extends the context by exactly one entry without touching the kind |
| HandlerOptions.Apply | handler_build.go:70 | optionFnc.apply on the build context is exactly the closure's effect `ApplyOption` |
| HandlerOptions.NamespaceOptions | handler_options.go:14-36 | OnAllNamespaces and OnNamespace append one namespace option; OnCurrentNamespace fails on nil with "client config cannot be nil", passes on the config's error, and otherwise appends the resolved namespace |
| HandlerOptions.UpdatePolicyOption | handler_options.go:40-52 | a nil policy fails with "update policy cannot be nil"; otherwise one controller option is appended |
| HandlerOptions.EventOptionRegisters | handler_options.go:56-109 | OnCreate, OnChange and OnDelete fail on nil with their own message and otherwise append exactly their registration |
| HandlerOptions.SecondRegistrationFails | handler_options.go:63-66 | two OnCreate options are both accepted at option time; running them fails with "OnCreate can only be called once" and keeps the first function |
| HandlerGo.EventContainer.constructor | handler.go:204-211 | a container starts with its variety, its kind and an empty key |
| HandlerGo.EventContainer.SetKey | handler.go:215 | setKey stores the key |
| HandlerGo.BuildContext.constructor | handler.go:49 | the build context starts empty |
| HandlerGo.ClassifyCharacterised | handler.go:62-78 | the type switch succeeds exactly when there is at most one kind option and every option is recognised; it then keeps that kind and the event options in order |
| HandlerGo.KindOfNone | handler.go:57 | with no kind option, no kind is selected |
| HandlerGo.ClassifyErrorPersists | handler.go:62-78 | once the switch has failed, later options do not change the error |
| HandlerGo.FirstApplyErrorReturned | handler.go:51-55 | the first failing apply decides NewHandler's error |
| HandlerGo.ApplyErrorFound | handler.go:51-55 | any option whose apply fails makes the first loop fail |
| HandlerGo.BuiltOnlyFromValidOptions | handler.go:48-115 | a handler is built only when no apply fails, every option is recognised, there is exactly one kind whose closure succeeds with the built kind, and at least one event option |
| HandlerGo.InvalidOptionsRejected | handler.go:64-90 | a second kind or an unrecognised option is rejected; a missing kind fails with "kind must be provided"; an empty event list with "at least one event handler (On...) must be provided" |
| HandlerGo.SecondKindMessage | handler.go:62-78 | a kind option that follows recognised options holding exactly one kind fails with "only one kind must be provided", whatever comes after, once no apply has failed |
| HandlerGo.TwoLeadingKinds | handler.go:65-67 | two leading kind options fail with "only one kind must be provided" once no apply has failed |
| HandlerGo.DefaultUpdatePolicy | handler.go:132 | the default policy accepts exactly when the resource versions differ |
| HandlerGo.SameVersionIgnored | handler.go:143-152 | an update whose snapshots have the same resource version enqueues nothing |
| HandlerGo.SyncHandler | handler.go:219-259 | split and lookup errors are returned unwrapped; NotFound ends with nil; an unset slot is skipped; a callback is invoked exactly when the object is found and its slot is set, and its error is returned |
| HandlerGo.DispatchAgreesWithHandlerRun | handler.go:219-259 | the older dispatch invokes the same callback and fails in the same cases as the corrected newer sync, which wraps a split or lookup error in "failed to synchronize handler"; the as-written newer sync differs exactly on a found object with an unset slot, where it panics and the older one returns nil, and agrees with the corrected one everywhere else |
| HandlerGo.Handler.constructor | handler.go:26-35 | a handler starts with its collaborators and an empty, running queue |
| HandlerGo.Handler.EnqueueWith | handler.go:122-130 | a key that cannot be derived drops the event silently; otherwise the key is stored in the container before it alone is added |
| HandlerGo.Handler.AddAdapter | handler.go:135-141 | the queue gains one fresh create container of the kind per event of `AddEvents` |
| HandlerGo.Handler.UpdateAdapter | handler.go:143-152 | the queue gains one fresh update container per event of `UpdateEvents` under the default policy |
| HandlerGo.Handler.DeleteAdapter | handler.go:154-160 | the queue gains one fresh delete container per event of `DeleteEvents` |
| HandlerGo.Handler.HandleErr | handler.go:261-275 | the same Forget / AddRateLimited / Forget rule and calls as handler_run.go |
| HandlerGo.Handler.ProcessNextWorkItem | handler.go:276-287 | false with only a Get call on shutdown; otherwise the head container is synced, handed to handleErr, and released by exactly one Done; the whole effect is `NextItem` applied to the queue |
| HandlerGo.Handler.Worker | handler.go:288-291 | once shutting down, the queue state is exactly `Drain` of the ready containers: each in order is handed out, synced, settled by handleErr and released with Done, and then the last Get reports shutdown; the queue ends empty, with at least three new calls per container plus that Get, every container has a Done among the new calls and is no longer checked out, and the counter bound is kept |
| HandlerGo.NextItem | handler.go:276-287 | one processNextWorkItem as a value: a Get only on an empty queue; otherwise the head container is handed out, and handleErr's calls, its settled counter and requeue and the deferred Done follow |
| HandlerGo.Drain | handler.go:288-291 | the worker loop as a value: processNextWorkItem once per ready container, then the last Get; every container is handed out |
| HandlerGo.DrainAdvances | handler.go:288-291 | processing the head container and then draining the rest has exactly the effect of draining the whole |
| HandlerGo.DrainReleasesEach | handler.go:276-291 | a drain releases exactly the containers it is given, each with a Done among its calls |
| HandlerGo.DrainEnds | handler.go:276-291 | a drain makes at least three calls per container and ends with the Get that reports shutdown |
| HandlerGo.DrainedQueue | handler.go:276-291 | the queue a drain leaves: nothing ready, at least three new calls per container plus the last Get, and every container released with a Done and no longer checked out |
| HandlerGo.ApplyEach | handler.go:51-55 | the first loop returns the first apply error, or none, as `ApplyAll` over the options does |
| HandlerGo.SortOptions | handler.go:62-78 | the type-switch loop returns exactly what `Classify` gives for the options |
| HandlerGo.NewHandler | handler.go:48-120 | fails exactly when `NewHandlerSpec` does, with its error and no handler; otherwise a fresh handler on the caller's controller with the built kind, informer options, callbacks and an empty queue; the controller's logger is renamed "<apiVersion>/<name>" exactly when the options validate |
| HandlerEvents.Call | handler_events.go:26-29 | the user function is invoked once with the decoded objects, and its error alone goes to handleError |
| HandlerEvents.SingleEffects | handler_events.go:15-31 | a decode failure is handed to handleError without calling the user function; otherwise the user function is called |
| HandlerEvents.ChangeEffectsUnder | handler_events.go:37-64 | each decode failure goes to handleError; the user function is called exactly when both snapshots decode and the policy accepts |
| HandlerEvents.ChangeEffects | handler_events.go:53-56 | with the controller's stub policy the user's change function is never called, and a decoded update has no effect |
| HandlerEvents.InstallOn | handler_events.go:17 | each option writes only its own field |
| HandlerEvents.LaterInstallWins | handler_events.go:39 | installing the same option twice keeps the later wrapper |
| HandlerEvents.ResourceEventHandlerFuncs.constructor | handler_events.go:10 | the three callback fields start unset |
| HandlerEvents.Install | handler_events.go:15-86 | calling an option changes the funcs exactly as `InstallOn` |
| HandlerKubeobj.Kind | handler_kubeobj.go:13-20 | Kind(nil)() fails with "kind cannot be nil"; Kind(k)() returns k |
| HandlerKubeobj.OnAllNamespaces | handler_kubeobj.go:24-30 | the closure never fails and yields the one option for "" |
| HandlerKubeobj.OnNamespace | handler_kubeobj.go:31-37 | the closure never fails and yields the one option for ns |
| HandlerKubeobj.OnCurrentNamespace | handler_kubeobj.go:38-52 | nil fails with "client config cannot be nil"; a Namespace() error is passed on with no options; otherwise one option for the resolved namespace |
| HandlerKubeobj.CurrentNamespaceAgrees | handler_kubeobj.go:38-52 | this closure and the options-API closure accept and fail alike, with the same errors and the same namespace option |
| HandlerKubeobj.NilKindAbortsBuild | handler_kubeobj.go:13-20 | a nil kind makes NewHandler fail with "kind cannot be nil" |
| Kontroller.Kontroller.constructor | kontroller.go:23-29 | the controller stores its name and client, with the fake logger and no handlers |
| Kontroller.Kontroller.SetLogger | kontroller.go:31 | only the logger is replaced |
| Kontroller.Kontroller.Register | kontroller.go:32-35 | the handlers are appended in order after the existing ones, and nil is returned |
| Kontroller.Kontroller.Copy | kontroller.go:49 | copy returns the same controller |
| Kontroller.Kontroller.SetUpdatePolicy | kontroller.go:51 | setting a policy changes nothing |
| Kontroller.Kontroller.UpdatePolicy | kontroller.go:52 | the update policy rejects every pair |
| Kontroller.Kontroller.Client | kontroller.go:54 | the stored client is returned, whatever type is asked for |
| Kontext.SubContext | kontext.go:24-30 | the same context and informer, a logger named after the argument, no namespace and name |
| Kontext.HandlerContext | kontext.go:32-40 | the same context and informer, a logger named "<namespace>/<name>", and that namespace and name |
| Kontext.HandlerContextQueries | kontext.go:42-44 | a handler context reports its namespace and name and looks up exactly that object |
| Kontext.SubContextQueries | kontext.go:24-44 | a sub-context reports empty namespace and name and looks up the empty key |
| Kontext.HandlerContextOfSubContext | kontext.go:24-40 | a handler context derived from a sub-context keeps the root's context and informer |
| KLogrus.WithFields | log/klogrus/logrus_wrapper.go:70 | the new fields override the accumulated ones, which are otherwise kept |
| KLogrus.New | log/klogrus/logrus_wrapper.go:59-61 | a new logger has an empty name and no fields |
| KLogrus.Named | log/klogrus/logrus_wrapper.go:74-82 | the name is s under an unnamed logger and "<name>.<s>" otherwise; the "logger" field holds it |
| KLogrus.NamedJoins | log/klogrus/logrus_wrapper.go:74-82 | naming by non-empty segments in turn gives them joined with ".", also in the "logger" field |
| KLogrus.NamedFourTimes | log/klogrus/logrus_wrapper_test.go:114-117 | naming "a", "b", "c", "d" in turn gives "a.b.c.d" |
| KLogrus.SignedNarrowing | log/klogrus/logrus_wrapper.go:34-36 | the signed conversions land in their type's range, agree with the integer modulo 2^width, and keep values already in range |
| KLogrus.UnsignedNarrowing | log/klogrus/logrus_wrapper.go:38-42 | the unsigned conversions land in [0, 2^width), agree modulo 2^width, and keep values in range |
| KLogrus.Convert | log/klogrus/logrus_wrapper.go:21-57 | Namespace panics exactly; Unknown and Skip add no entry exactly; every entry is under the field's key; a bool is Integer == 1; a string is the String; exactly the nine integer types put an integer |
| KLogrus.IntegerEntriesInRange | log/klogrus/logrus_wrapper.go:33-42 | an integer entry records the signedness and width of the field's own Go type, lies in that type's range and agrees with the Integer modulo 2^width |
| KLogrus.SignedEntry | log/klogrus/logrus_wrapper.go:33-36 | a field of the signed type of a width is put under its key as a signed integer of that width, in range and congruent to the Integer |
| KLogrus.UnsignedEntry | log/klogrus/logrus_wrapper.go:38-42 | a field of the unsigned type of a width, or uintptr at 64 bits, is put under its key as an unsigned integer of that width, in range and congruent to the Integer |
| KLogrus.SignedEntriesByType | log/klogrus/logrus_wrapper.go:33-36 | int64 keeps the Integer; int32, int16 and int8 put a signed integer of 32, 16 and 8 bits in [-2^31, 2^31), [-2^15, 2^15) and [-2^7, 2^7), congruent to the Integer modulo 2^32, 2^16 and 2^8 |
| KLogrus.UnsignedEntriesByType | log/klogrus/logrus_wrapper.go:38-42 | uint64 and uintptr put an unsigned 64-bit integer in [0, 2^64), and uint32, uint16 and uint8 one of 32, 16 and 8 bits in [0, 2^32), [0, 2^16) and [0, 2^8), each congruent to the Integer modulo 2^bits |
| KLogrus.CollectPanics | log/klogrus/logrus_wrapper.go:64-68 | With panics exactly when some field is of Namespace type |
| KLogrus.LastFieldWins | log/klogrus/logrus_wrapper.go:64-68 | a key holds the value of the last field that puts an entry under it |
| KLogrus.CollectKeys | log/klogrus/logrus_wrapper.go:64-68 | a key has an entry exactly when some field puts one under it |
| KLogrus.With | log/klogrus/logrus_wrapper.go:63-72 | With panics exactly when `Collect` does; otherwise the core gains the collected fields and the name is kept |
| LogField.AfterNewlinesCharacterised | log/field.go:97-105 | the text after the n-th line break exists exactly when there are n of them, and is the suffix right after the n-th |
| LogField.TrimmedIsSuffix | log/field.go:97-108 | the kept text is a suffix; unchanged with fewer than two line breaks; otherwise exactly what follows the second |
| LogField.Stack | log/field.go:92-109 | the field keeps the key and the string type, and its text is the trace trimmed of its first two lines |

## Left out

- `Handler.Run` (handler.go:178-196, handler_run.go:23-49) and `Kontroller.Run`: goroutines, channels, `wait.Until` and errgroup are concurrency, outside a sequential model.
- The event broadcaster and recorder: the "synced" event is a `recorded` list on the handler; the broadcaster wiring at the end of `NewHandler` is not modelled, and neither is the conversion at handler.go:169, `k.kube.(*kubernetes.Clientset)`, which panics for any other client (a fake clientset, say), so that `return handler, nil` is reached only with a real clientset.
- client-go's work queue internals: deduplication, backoff delays and the rate limiter. The queue is an abstract state with the increment assumption for `AddRateLimited`; `Get` would block on an empty running queue, so it requires an item or a shutdown, and the workers require a shutdown.
- `cache.MetaNamespaceKeyFunc`, `cache.SplitMetaNamespaceKey`, `informer.Get` and the user callbacks are parameters (`Kube.Cluster`, `HandlerEvents.UserCode`, `Kontext.Informers`).
- A panic in `syncHandler` of handler_run.go is modelled as `HandlerRun.Worker` stopping with `panicked`, after the deferred `Done`; unwinding the goroutine and crashing the process are not modelled.
- `Kube.Cluster` is fixed for a handler's lifetime: every sync of the same key against it gives the same outcome, so a retried item sees the same cluster state as its first attempt.
- `h.updatePolicy` of handler_event.go is not defined in the modelled files; it is a constructor parameter of `HandlerEvent.Handler`.
- `informerFactoryOptions.apply` and `kontrolerOptions.apply` are not part of this model; their outcomes are parameters of `HandlerGo.Wiring`, as is the informer `kind.Informer` builds.
- The build context of `NewHandler`'s first loop is discarded by the code; only each option's apply error is modelled.
- The queue name (with its UUID) and the informer resync period in `NewHandler`.
- The `handlerBuildContext` of handler_build.go (`hdlrOpts`) is only reached through the generic `HandlerBuild.ApplyHandlerOptions`.
- `newContext` and `handleError` of the controller appear only as effects (`HandlerEvents.Effect`); `handleError` has an empty body.
- Log output and Printf/Debugf formatting, including the tombstone debug lines (whose defect is recorded below).
- The float, complex, time, binary, byte-string, duration and stringer converters of the logrus wrapper: they become `Unconverted` values. `uintptr` is taken to be 64 bits wide.
- `kind/*`, `log/kzap`, `log/fake`, `log/logger.go`, the other `log/field.go` constructors, `sample/` and `examples/`.
- `Stack` takes the captured trace as a parameter instead of calling the runtime.

## Findings

| source | as written | input that shows it | evidently intended | confidence | as-written member | corrected member |
|---|---|---|---|---|---|---|
| handler_event.go:40 | the tombstone branch calls `GetName()` on the nil result of the failed object assertion before unwrapping (also handler.go:304 and handler_events.go:97) | a delete notification carrying `cache.DeletedFinalStateUnknown` around a valid object | unwrap the tombstone and return its object | not executed | HandlerEvent.TombstoneDefect | HandlerEvent.BaseHandler |
| handler_run.go:84 | the selected callback is called even when its slot is nil | an update event for a present object on a handler that registered only `OnCreate` | skip an unset callback with nil, as handler.go:249-251 does | not executed | HandlerRun.UnsetSlotPanics | HandlerRun.SyncHandlerGuarded |
