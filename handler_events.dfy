/**
 * handler_events.go: the direct-callback generation. An EventOption installs
 * a wrapper into one field of the informer's ResourceEventHandlerFuncs; when
 * the informer calls it, the wrapper decodes the raw payload(s), consults the
 * controller's update policy (updates only), calls the user function, and
 * hands every error to the controller's handleError.
 */
module HandlerEvents {

  import opened Kube
  import HandlerEvent
  import Kontroller

  /** What a wrapper does, in order: call the user function, hand an error to handleError, or call a nil function. */
  datatype Effect = Invoked(fnc: Func, args: seq<KObject>) | ErrorHandled(err: Error) | NilCalled

  /** The user functions, seen through the error each call returns. */
  datatype UserCode = UserCode(call: (Func, seq<KObject>) -> Option<Error>)

  /** An EventOption and the user function it captured (None for nil, which is not checked here). */
  datatype EventOption = OnCreate(fnc: Option<Func>) | OnChange(fnc: Option<Func>) | OnDelete(fnc: Option<Func>)

  /** An installed wrapper: the controller and the user function its closure captured. */
  datatype Wrapper = Wrapper(ktr: Kontroller.Kontroller, fnc: Option<Func>)

  /** The value of a ResourceEventHandlerFuncs. */
  datatype Funcs = Funcs(addFunc: Option<Wrapper>, updateFunc: Option<Wrapper>, deleteFunc: Option<Wrapper>)

  predicate Invokes(effects: seq<Effect>)
  {
    exists i :: 0 <= i < |effects| && effects[i].Invoked?
  }

  /**
   * Calling the user function: nil aborts; otherwise it is invoked once with
   * the decoded objects, and its error, if any, goes to handleError.
   */
  function Call(u: UserCode, fnc: Option<Func>, args: seq<KObject>): (r: seq<Effect>)
    ensures fnc.None? ==> r == [NilCalled]
    ensures fnc.Some? ==> 1 <= |r| <= 2 && r[0] == Invoked(fnc.value, args)
    ensures fnc.Some? ==> (|r| == 2 <==> u.call(fnc.value, args).Some?)
    ensures |r| == 2 ==> r[1] == ErrorHandled(u.call(fnc.value, args).value)
  {
    if fnc.None? then [NilCalled]
    else
      [Invoked(fnc.value, args)] + match u.call(fnc.value, args)
        case Some(e) => [ErrorHandled(e)]
        case None => []
  }

  /** The AddFunc / DeleteFunc wrapper: a decode error goes to handleError and the user function is not called. */
  function SingleEffects(u: UserCode, fnc: Option<Func>, raw: Raw): (r: seq<Effect>)
    ensures HandlerEvent.BaseHandler(raw).Err? ==> r == [ErrorHandled(HandlerEvent.BaseHandler(raw).error)]
    ensures HandlerEvent.BaseHandler(raw).Ok? ==> r == Call(u, fnc, [HandlerEvent.BaseHandler(raw).value])
    ensures Invokes(r) <==> HandlerEvent.BaseHandler(raw).Ok? && fnc.Some?
  {
    match HandlerEvent.BaseHandler(raw)
    case Err(e) => [ErrorHandled(e)]
    case Ok(obj) => Call(u, fnc, [obj])
  }

  /**
   * The UpdateFunc wrapper under an update policy: the old snapshot is
   * decoded first, then the current one, each failure going to handleError;
   * an update the policy rejects is ignored; otherwise the user function is
   * called with both objects.
   */
  function ChangeEffectsUnder(u: UserCode, policy: (KObject, KObject) -> bool, fnc: Option<Func>, prev: Raw, curr: Raw): (r: seq<Effect>)
    ensures HandlerEvent.BaseHandler(prev).Err? ==> r == [ErrorHandled(HandlerEvent.BaseHandler(prev).error)]
    ensures HandlerEvent.BaseHandler(prev).Ok? && HandlerEvent.BaseHandler(curr).Err? ==>
      r == [ErrorHandled(HandlerEvent.BaseHandler(curr).error)]
    ensures Invokes(r) <==>
      && HandlerEvent.BaseHandler(prev).Ok? && HandlerEvent.BaseHandler(curr).Ok?
      && policy(HandlerEvent.BaseHandler(prev).value, HandlerEvent.BaseHandler(curr).value)
      && fnc.Some?
    ensures HandlerEvent.BaseHandler(prev).Ok? && HandlerEvent.BaseHandler(curr).Ok? ==>
      var p := HandlerEvent.BaseHandler(prev).value;
      var c := HandlerEvent.BaseHandler(curr).value;
      r == if policy(p, c) then Call(u, fnc, [p, c]) else []
  {
    match HandlerEvent.BaseHandler(prev)
    case Err(e) => [ErrorHandled(e)]
    case Ok(p) =>
      match HandlerEvent.BaseHandler(curr)
      case Err(e) => [ErrorHandled(e)]
      case Ok(c) => if !policy(p, c) then [] else Call(u, fnc, [p, c])
  }

  /**
   * The UpdateFunc wrapper as installed: the policy is the controller's
   * updatePolicy, which is a stub rejecting every update, so the user's
   * change function is never called; a decoded update has no effect at all.
   */
  function ChangeEffects(u: UserCode, w: Wrapper, prev: Raw, curr: Raw): (r: seq<Effect>)
    ensures !Invokes(r)
    ensures HandlerEvent.BaseHandler(prev).Ok? && HandlerEvent.BaseHandler(curr).Ok? ==> r == []
    ensures |r| <= 1 && forall i :: 0 <= i < |r| ==> r[i].ErrorHandled?
  {
    ChangeEffectsUnder(u, (p, c) => w.ktr.UpdatePolicy(p, c), w.fnc, prev, curr)
  }

  /** Installing an option writes only its own field, without any check, replacing what was there. */
  function InstallOn(opt: EventOption, ktr: Kontroller.Kontroller, f: Funcs): (r: Funcs)
    ensures opt.OnCreate? ==> r == f.(addFunc := Some(Wrapper(ktr, opt.fnc)))
    ensures opt.OnChange? ==> r == f.(updateFunc := Some(Wrapper(ktr, opt.fnc)))
    ensures opt.OnDelete? ==> r == f.(deleteFunc := Some(Wrapper(ktr, opt.fnc)))
  {
    match opt
    case OnCreate(fnc) => f.(addFunc := Some(Wrapper(ktr, fnc)))
    case OnChange(fnc) => f.(updateFunc := Some(Wrapper(ktr, fnc)))
    case OnDelete(fnc) => f.(deleteFunc := Some(Wrapper(ktr, fnc)))
  }

  /** Unlike the options API, installing the same kind of option twice is not refused: the later one wins. */
  lemma LaterInstallWins(a: Option<Func>, b: Option<Func>, ktr: Kontroller.Kontroller, f: Funcs)
    ensures InstallOn(OnCreate(b), ktr, InstallOn(OnCreate(a), ktr, f)) == InstallOn(OnCreate(b), ktr, f)
    ensures InstallOn(OnChange(b), ktr, InstallOn(OnChange(a), ktr, f)) == InstallOn(OnChange(b), ktr, f)
    ensures InstallOn(OnDelete(b), ktr, InstallOn(OnDelete(a), ktr, f)) == InstallOn(OnDelete(b), ktr, f)
  {
  }

  /** cache.ResourceEventHandlerFuncs: the three callback fields the options write. */
  class ResourceEventHandlerFuncs {
    var addFunc: Option<Wrapper>
    var updateFunc: Option<Wrapper>
    var deleteFunc: Option<Wrapper>

    constructor ()
      ensures Value() == Funcs(None, None, None)
    {
      addFunc, updateFunc, deleteFunc := None, None, None;
    }

    function Value(): Funcs
      reads this
    {
      Funcs(addFunc, updateFunc, deleteFunc)
    }
  }

  /** Calling an EventOption with the controller and the informer's handler funcs. */
  method Install(opt: EventOption, ktr: Kontroller.Kontroller, events: ResourceEventHandlerFuncs)
    modifies events
    ensures events.Value() == InstallOn(opt, ktr, old(events.Value()))
  {
    match opt {
      case OnCreate(fnc) => events.addFunc := Some(Wrapper(ktr, fnc));
      case OnChange(fnc) => events.updateFunc := Some(Wrapper(ktr, fnc));
      case OnDelete(fnc) => events.deleteFunc := Some(Wrapper(ktr, fnc));
    }
  }
}
