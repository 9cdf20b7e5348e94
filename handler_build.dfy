/**
 * handler_build.go: the event registry (three callback slots), the event
 * options that fill it, and the in-order, stop-at-first-error application of
 * option lists shared by handlerOptions.apply and eventOptions.apply.
 */
module HandlerBuild {

  import opened Kube

  /** The value of an eventRegistry: one optional callback per event kind. */
  datatype Callbacks = Callbacks(create: Option<Func>, update: Option<Func>, delete: Option<Func>)

  const NoCallbacks := Callbacks(None, None, None)

  /**
   * An eventOption: the closures that OnCreate, OnChange and OnDelete append
   * to the build context, each capturing a non-nil user function.
   */
  datatype EventOption = RegisterCreate(f: Func) | RegisterUpdate(f: Func) | RegisterDelete(f: Func)

  /** The outcome of running one option on a state: the new state and the error it returned. */
  datatype Step<S> = Step(state: S, err: Option<Error>)

  /** The slot an event option writes. */
  function SlotOf(opt: EventOption, cb: Callbacks): Option<Func>
  {
    match opt
    case RegisterCreate(_) => cb.create
    case RegisterUpdate(_) => cb.update
    case RegisterDelete(_) => cb.delete
  }

  /** Two registries that agree on every slot except the one `opt` writes. */
  predicate SameOtherSlots(opt: EventOption, a: Callbacks, b: Callbacks)
  {
    match opt
    case RegisterCreate(_) => a.update == b.update && a.delete == b.delete
    case RegisterUpdate(_) => a.create == b.create && a.delete == b.delete
    case RegisterDelete(_) => a.create == b.create && a.update == b.update
  }

  /**
   * The body of an eventOption closure: a slot that is already set is refused
   * and left as it was; otherwise only that slot is written.
   */
  function RunEventOption(opt: EventOption, cb: Callbacks): (r: Step<Callbacks>)
    ensures SameOtherSlots(opt, cb, r.state)
    ensures r.err.None? <==> SlotOf(opt, cb).None?
    ensures r.err.None? ==> SlotOf(opt, r.state) == Some(opt.f)
    ensures r.err.Some? ==> r.state == cb
  {
    match opt
    case RegisterCreate(f) =>
      if cb.create.Some? then Step(cb, Some(Message("OnCreate can only be called once")))
      else Step(cb.(create := Some(f)), None)
    case RegisterUpdate(f) =>
      if cb.update.Some? then Step(cb, Some(Message("OnChange can only be called once")))
      else Step(cb.(update := Some(f)), None)
    case RegisterDelete(f) =>
      if cb.delete.Some? then Step(cb, Some(Message("OnDelete can only be called once")))
      else Step(cb.(delete := Some(f)), None)
  }

  /** What applying an option list did: the final state, the error returned and how many options ran. */
  datatype Applied<S> = Applied(state: S, err: Option<Error>, ran: nat)

  /**
   * Apply options in list order; the first one that returns an error stops the
   * application (the options after it are not run) and its error is returned.
   */
  function ApplyAll<O, S>(opts: seq<O>, s: S, run: (O, S) -> Step<S>): (r: Applied<S>)
    ensures r.ran <= |opts|
    ensures r.err.None? ==> r.ran == |opts|
    ensures r.err.Some? ==> 1 <= r.ran
    decreases |opts|
  {
    if opts == [] then Applied(s, None, 0)
    else
      var prefix := ApplyAll(opts[..|opts| - 1], s, run);
      if prefix.err.Some? then prefix
      else
        var last := run(opts[|opts| - 1], prefix.state);
        Applied(last.state, last.err, |opts|)
  }

  /** Appending an option: it runs on the state the prefix left, unless the prefix already failed. */
  lemma ApplyAllSnoc<O, S>(opts: seq<O>, o: O, s: S, run: (O, S) -> Step<S>)
    ensures (opts + [o])[..|opts|] == opts
    ensures ApplyAll(opts + [o], s, run) ==
      var prefix := ApplyAll(opts, s, run);
      if prefix.err.Some? then prefix
      else Applied(run(o, prefix.state).state, run(o, prefix.state).err, |opts| + 1)
  {
    assert (opts + [o])[..|opts|] == opts;
  }

  /** If no option can fail, the application returns no error after running them all. */
  lemma {:induction false} NoFailingOption<O, S>(opts: seq<O>, s: S, run: (O, S) -> Step<S>)
    requires forall i, st :: 0 <= i < |opts| ==> run(opts[i], st).err.None?
    ensures ApplyAll(opts, s, run).err.None? && ApplyAll(opts, s, run).ran == |opts|
    decreases |opts|
  {
    if opts != [] {
      NoFailingOption(opts[..|opts| - 1], s, run);
    }
  }

  /** An empty list returns no error and leaves the state unchanged. */
  lemma ApplyNone<O, S>(s: S, run: (O, S) -> Step<S>)
    ensures ApplyAll([], s, run) == Applied(s, None, 0)
  {
  }

  /**
   * When an error is returned, it is the error of the `ran`-th option, which
   * ran on the state left by the options before it, and those all succeeded.
   */
  lemma {:induction false} FirstErrorStops<O, S>(opts: seq<O>, s: S, run: (O, S) -> Step<S>)
    requires ApplyAll(opts, s, run).err.Some?
    ensures var r := ApplyAll(opts, s, run);
      && 1 <= r.ran <= |opts|
      && ApplyAll(opts[..r.ran - 1], s, run).err.None?
      && run(opts[r.ran - 1], ApplyAll(opts[..r.ran - 1], s, run).state) == Step(r.state, r.err)
    decreases |opts|
  {
    var prefix := ApplyAll(opts[..|opts| - 1], s, run);
    if prefix.err.Some? {
      FirstErrorStops(opts[..|opts| - 1], s, run);
      var k := prefix.ran;
      assert opts[..|opts| - 1][..k - 1] == opts[..k - 1];
      assert opts[..|opts| - 1][k - 1] == opts[k - 1];
    }
  }

  /**
   * Options after the first failing one are not run: extending a failing
   * list changes nothing about the outcome.
   */
  lemma {:induction false} LaterOptionsNotRun<O, S>(opts: seq<O>, more: seq<O>, s: S, run: (O, S) -> Step<S>)
    requires ApplyAll(opts, s, run).err.Some?
    ensures ApplyAll(opts + more, s, run) == ApplyAll(opts, s, run)
    decreases |more|
  {
    if more != [] {
      var init := more[..|more| - 1];
      LaterOptionsNotRun(opts, init, s, run);
      assert (opts + more)[..|opts + more| - 1] == opts + init;
    } else {
      assert opts + more == opts;
    }
  }

  /** The eventRegistry that the event options write, slot by slot. */
  class EventRegistry {
    var create: Option<Func>
    var update: Option<Func>
    var delete: Option<Func>

    constructor ()
      ensures Value() == NoCallbacks
    {
      create, update, delete := None, None, None;
    }

    function Value(): Callbacks
      reads this
    {
      Callbacks(create, update, delete)
    }

    /** Run one eventOption closure on this registry. */
    method Run(opt: EventOption) returns (err: Option<Error>)
      modifies this
      ensures Step(Value(), err) == RunEventOption(opt, old(Value()))
    {
      err := None;
      match opt
      case RegisterCreate(f) =>
        if create.Some? {
          return Some(Message("OnCreate can only be called once"));
        }
        create := Some(f);
      case RegisterUpdate(f) =>
        if update.Some? {
          return Some(Message("OnChange can only be called once"));
        }
        update := Some(f);
      case RegisterDelete(f) =>
        if delete.Some? {
          return Some(Message("OnDelete can only be called once"));
        }
        delete := Some(f);
    }
  }

  /** eventOptions.apply: run the event options on the registry, in order, until the first error. */
  method ApplyEventOptions(opts: seq<EventOption>, events: EventRegistry) returns (err: Option<Error>)
    modifies events
    ensures var r := ApplyAll(opts, old(events.Value()), RunEventOption);
      events.Value() == r.state && err == r.err
  {
    ghost var start := events.Value();
    var i := 0;
    while i < |opts|
      invariant 0 <= i <= |opts|
      invariant ApplyAll(opts[..i], start, RunEventOption) == Applied(events.Value(), None, i)
    {
      ApplyAllSnoc(opts[..i], opts[i], start, RunEventOption);
      assert opts[..i + 1] == opts[..i] + [opts[i]];
      err := events.Run(opts[i]);
      if err.Some? {
        LaterOptionsNotRun(opts[..i + 1], opts[i + 1..], start, RunEventOption);
        assert opts[..i + 1] + opts[i + 1..] == opts;
        return;
      }
      i := i + 1;
    }
    assert opts[..i] == opts;
    err := None;
  }

  /** A handlerOption: a function that configures the handler and may fail. */
  datatype HandlerOption<!H> = HandlerOption(run: H -> Step<H>)

  function RunHandlerOption<H>(o: HandlerOption<H>, h: H): Step<H>
  {
    o.run(h)
  }

  /** handlerOptions.apply: configure the handler with each option in order until the first error. */
  method ApplyHandlerOptions<H>(opts: seq<HandlerOption<H>>, h: H) returns (h': H, err: Option<Error>)
    ensures var r := ApplyAll(opts, h, RunHandlerOption); h' == r.state && err == r.err
  {
    h' := h;
    var i := 0;
    while i < |opts|
      invariant 0 <= i <= |opts|
      invariant ApplyAll(opts[..i], h, RunHandlerOption) == Applied(h', None, i)
    {
      ApplyAllSnoc(opts[..i], opts[i], h, RunHandlerOption);
      assert opts[..i + 1] == opts[..i] + [opts[i]];
      var step := opts[i].run(h');
      h' := step.state;
      if step.err.Some? {
        LaterOptionsNotRun(opts[..i + 1], opts[i + 1..], h, RunHandlerOption);
        assert opts[..i + 1] + opts[i + 1..] == opts;
        return h', step.err;
      }
      i := i + 1;
    }
    assert opts[..i] == opts;
    err := None;
  }
}
