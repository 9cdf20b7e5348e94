/**
 * handler_options.go: the Option constructors of the options API. Each one
 * is an optionFnc around a closure that checks what it captured and appends
 * one entry to the handler build context (an informer option, a controller
 * option, or an event option that fills one registry slot, once).
 */
module HandlerOptions {

  import opened Kube
  import HandlerBuild
  import HandlerGo

  /** The options of this file, each with what its closure captured (None for nil). */
  datatype OptionFnc =
    | OnNamespace(ns: string)
    | OnCurrentNamespace(config: Option<ClientConfig>)
    | WithUpdatePolicy(policy: Option<PolicyRef>)
    | OnCreate(create: Option<Func>)
    | OnChange(update: Option<Func>)
    | OnDelete(delete: Option<Func>)

  /** OnAllNamespaces is the option for the empty namespace. */
  function OnAllNamespaces(): (r: OptionFnc)
    ensures r == OnNamespace("")
  {
    OnNamespace("")
  }

  const ClientConfigNil := Message("client config cannot be nil")
  const UpdatePolicyNil := Message("update policy cannot be nil")
  const OnCreateNil := Message("OnCreate function cannot be nil")
  const OnChangeNil := Message("OnChange function cannot be nil")
  const OnDeleteNil := Message("OnDelete function cannot be nil")

  /** Whether the closure accepts what it captured. */
  predicate Accepted(opt: OptionFnc)
  {
    match opt
    case OnNamespace(_) => true
    case OnCurrentNamespace(c) => c.Some? && c.value.namespace.Ok?
    case WithUpdatePolicy(p) => p.Some?
    case OnCreate(f) => f.Some?
    case OnChange(f) => f.Some?
    case OnDelete(f) => f.Some?
  }

  /** The number of entries of a build context's three lists. */
  function Entries(ctx: HandlerGo.Context): nat
  {
    |ctx.informerOpts| + |ctx.ktrlOpts| + |ctx.eventOpts|
  }

  /** `ctx` is `prev` with entries appended to its lists, and the same kind. */
  predicate Extends(prev: HandlerGo.Context, ctx: HandlerGo.Context)
  {
    && ctx.kind == prev.kind
    && prev.informerOpts <= ctx.informerOpts
    && prev.ktrlOpts <= ctx.ktrlOpts
    && prev.eventOpts <= ctx.eventOpts
  }

  /**
   * optionFnc.apply: the closure's effect on the build context. A rejected
   * option returns its error and leaves the context as it was; an accepted
   * one appends exactly one entry.
   */
  function ApplyOption(opt: OptionFnc, ctx: HandlerGo.Context): (r: HandlerBuild.Step<HandlerGo.Context>)
    ensures r.err.None? <==> Accepted(opt)
    ensures r.err.Some? ==> r.state == ctx
    ensures r.err.None? ==> Extends(ctx, r.state) && Entries(r.state) == Entries(ctx) + 1
  {
    match opt
    case OnNamespace(ns) =>
      HandlerBuild.Step(ctx.(informerOpts := ctx.informerOpts + [WithNamespace(ns)]), None)
    case OnCurrentNamespace(c) =>
      if c.None? then HandlerBuild.Step(ctx, Some(ClientConfigNil))
      else if c.value.namespace.Err? then HandlerBuild.Step(ctx, Some(c.value.namespace.error))
      else HandlerBuild.Step(ctx.(informerOpts := ctx.informerOpts + [WithNamespace(c.value.namespace.value)]), None)
    case WithUpdatePolicy(p) =>
      if p.None? then HandlerBuild.Step(ctx, Some(UpdatePolicyNil))
      else HandlerBuild.Step(ctx.(ktrlOpts := ctx.ktrlOpts + [HandlerGo.UpdatePolicyOpt(p.value)]), None)
    case OnCreate(f) =>
      if f.None? then HandlerBuild.Step(ctx, Some(OnCreateNil))
      else HandlerBuild.Step(ctx.(eventOpts := ctx.eventOpts + [HandlerBuild.RegisterCreate(f.value)]), None)
    case OnChange(f) =>
      if f.None? then HandlerBuild.Step(ctx, Some(OnChangeNil))
      else HandlerBuild.Step(ctx.(eventOpts := ctx.eventOpts + [HandlerBuild.RegisterUpdate(f.value)]), None)
    case OnDelete(f) =>
      if f.None? then HandlerBuild.Step(ctx, Some(OnDeleteNil))
      else HandlerBuild.Step(ctx.(eventOpts := ctx.eventOpts + [HandlerBuild.RegisterDelete(f.value)]), None)
  }

  /** optionFnc.apply(ctx): the call of the wrapped closure on the build context. */
  method Apply(opt: OptionFnc, ctx: HandlerGo.BuildContext) returns (err: Option<Error>)
    modifies ctx
    ensures HandlerBuild.Step(ctx.Value(), err) == ApplyOption(opt, old(ctx.Value()))
  {
    err := None;
    match opt {
      case OnNamespace(ns) =>
        ctx.informerOpts := ctx.informerOpts + [WithNamespace(ns)];
      case OnCurrentNamespace(c) =>
        if c.None? {
          return Some(ClientConfigNil);
        }
        var ns := c.value.namespace;
        if ns.Err? {
          return Some(ns.error);
        }
        ctx.informerOpts := ctx.informerOpts + [WithNamespace(ns.value)];
      case WithUpdatePolicy(p) =>
        if p.None? {
          return Some(UpdatePolicyNil);
        }
        ctx.ktrlOpts := ctx.ktrlOpts + [HandlerGo.UpdatePolicyOpt(p.value)];
      case OnCreate(f) =>
        if f.None? {
          return Some(OnCreateNil);
        }
        ctx.eventOpts := ctx.eventOpts + [HandlerBuild.RegisterCreate(f.value)];
      case OnChange(f) =>
        if f.None? {
          return Some(OnChangeNil);
        }
        ctx.eventOpts := ctx.eventOpts + [HandlerBuild.RegisterUpdate(f.value)];
      case OnDelete(f) =>
        if f.None? {
          return Some(OnDeleteNil);
        }
        ctx.eventOpts := ctx.eventOpts + [HandlerBuild.RegisterDelete(f.value)];
    }
  }

  /**
   * The namespace options: OnNamespace always succeeds with one informer
   * option for its namespace; OnCurrentNamespace fails on a nil config,
   * returns the config's error unchanged, and otherwise appends the option
   * for the namespace the config resolves to.
   */
  lemma NamespaceOptions(ns: string, cfg: ClientConfig, ctx: HandlerGo.Context)
    ensures ApplyOption(OnAllNamespaces(), ctx) == HandlerBuild.Step(ctx.(informerOpts := ctx.informerOpts + [WithNamespace("")]), None)
    ensures ApplyOption(OnNamespace(ns), ctx) == HandlerBuild.Step(ctx.(informerOpts := ctx.informerOpts + [WithNamespace(ns)]), None)
    ensures ApplyOption(OnCurrentNamespace(None), ctx) == HandlerBuild.Step(ctx, Some(ClientConfigNil))
    ensures cfg.namespace.Err? ==> ApplyOption(OnCurrentNamespace(Some(cfg)), ctx) == HandlerBuild.Step(ctx, Some(cfg.namespace.error))
    ensures cfg.namespace.Ok? ==>
      ApplyOption(OnCurrentNamespace(Some(cfg)), ctx) ==
      HandlerBuild.Step(ctx.(informerOpts := ctx.informerOpts + [WithNamespace(cfg.namespace.value)]), None)
  {
  }

  /** WithUpdatePolicy rejects nil and otherwise appends exactly one controller option for the policy. */
  lemma UpdatePolicyOption(p: PolicyRef, ctx: HandlerGo.Context)
    ensures ApplyOption(WithUpdatePolicy(None), ctx) == HandlerBuild.Step(ctx, Some(UpdatePolicyNil))
    ensures ApplyOption(WithUpdatePolicy(Some(p)), ctx) ==
      HandlerBuild.Step(ctx.(ktrlOpts := ctx.ktrlOpts + [HandlerGo.UpdatePolicyOpt(p)]), None)
  {
  }

  /** The event option an accepted OnCreate / OnChange / OnDelete appends. */
  function RegistrationOf(opt: OptionFnc): Option<HandlerBuild.EventOption>
  {
    match opt
    case OnCreate(f) => if f.Some? then Some(HandlerBuild.RegisterCreate(f.value)) else None
    case OnChange(f) => if f.Some? then Some(HandlerBuild.RegisterUpdate(f.value)) else None
    case OnDelete(f) => if f.Some? then Some(HandlerBuild.RegisterDelete(f.value)) else None
    case _ => None
  }

  /**
   * The event options: a nil function is rejected when the option is
   * applied, a non-nil one is appended as the registration of its own slot.
   */
  lemma {:induction false} EventOptionRegisters(opt: OptionFnc, ctx: HandlerGo.Context)
    requires opt.OnCreate? || opt.OnChange? || opt.OnDelete?
    ensures ApplyOption(opt, ctx).err.None? <==> RegistrationOf(opt).Some?
    ensures RegistrationOf(opt).Some? ==>
      ApplyOption(opt, ctx) == HandlerBuild.Step(ctx.(eventOpts := ctx.eventOpts + [RegistrationOf(opt).value]), None)
    ensures opt == OnCreate(None) ==> ApplyOption(opt, ctx).err == Some(OnCreateNil)
    ensures opt == OnChange(None) ==> ApplyOption(opt, ctx).err == Some(OnChangeNil)
    ensures opt == OnDelete(None) ==> ApplyOption(opt, ctx).err == Some(OnDeleteNil)
  {
    match opt
    case OnCreate(f) =>
    case OnChange(f) =>
    case OnDelete(f) =>
  }

  /**
   * Registering the same slot twice: both options are accepted, and running
   * the registrations on a registry without that slot keeps the first
   * function and fails the second with "... can only be called once".
   */
  lemma {:induction false} SecondRegistrationFails(f: Func, g: Func, ctx: HandlerGo.Context, reg: HandlerBuild.Callbacks)
    requires reg.create.None?
    ensures var s1 := ApplyOption(OnCreate(Some(f)), ctx);
      var s2 := ApplyOption(OnCreate(Some(g)), s1.state);
      && s1.err.None? && s2.err.None?
      && s2.state.eventOpts == ctx.eventOpts + [HandlerBuild.RegisterCreate(f), HandlerBuild.RegisterCreate(g)]
    ensures var r := HandlerBuild.ApplyAll([HandlerBuild.RegisterCreate(f), HandlerBuild.RegisterCreate(g)], reg, HandlerBuild.RunEventOption);
      r == HandlerBuild.Applied(reg.(create := Some(f)), Some(Message("OnCreate can only be called once")), 2)
  {
    var opts := [HandlerBuild.RegisterCreate(f), HandlerBuild.RegisterCreate(g)];
    HandlerBuild.ApplyAllSnoc([], opts[0], reg, HandlerBuild.RunEventOption);
    assert [] + [opts[0]] == [opts[0]];
    HandlerBuild.ApplyAllSnoc([opts[0]], opts[1], reg, HandlerBuild.RunEventOption);
    assert [opts[0]] + [opts[1]] == opts;
  }
}
