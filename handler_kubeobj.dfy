/**
 * handler_kubeobj.go: the option constructors of the closure-returning
 * generation. Each returns a closure without arguments that either yields a
 * value or fails; nothing is appended anywhere until NewHandler consumes it.
 */
module HandlerKubeobj {

  import opened Kube
  import HandlerBuild
  import HandlerGo
  import HandlerOptions

  const KindNil := Message("kind cannot be nil")
  const ClientConfigNil := Message("client config cannot be nil")

  /** Kind(k): a closure that fails on a nil kind and otherwise yields k. */
  function Kind(k: Option<KindSpec>): (r: () -> Result<KindSpec>)
    ensures k.None? ==> r() == Err(KindNil)
    ensures k.Some? ==> r() == Ok(k.value)
  {
    () => if k.None? then Err(KindNil) else Ok(k.value)
  }

  /** OnAllNamespaces: a closure that always yields the one option for the empty namespace. */
  function OnAllNamespaces(): (r: () -> Result<seq<InformerOpt>>)
    ensures r() == Ok([WithNamespace("")])
  {
    () => Ok([WithNamespace("")])
  }

  /** OnNamespace(ns): a closure that always yields the one option for ns. */
  function OnNamespace(ns: string): (r: () -> Result<seq<InformerOpt>>)
    ensures r() == Ok([WithNamespace(ns)])
  {
    () => Ok([WithNamespace(ns)])
  }

  /**
   * OnCurrentNamespace(c): a closure that fails on a nil config, passes on
   * the config's own error with no options, and otherwise yields the one
   * option for the namespace the config resolves to.
   */
  function OnCurrentNamespace(c: Option<ClientConfig>): (r: () -> Result<seq<InformerOpt>>)
    ensures c.None? ==> r() == Err(ClientConfigNil)
    ensures c.Some? && c.value.namespace.Err? ==> r() == Err(c.value.namespace.error)
    ensures c.Some? && c.value.namespace.Ok? ==> r() == Ok([WithNamespace(c.value.namespace.value)])
  {
    () =>
      if c.None? then Err(ClientConfigNil)
      else if c.value.namespace.Err? then Err(c.value.namespace.error)
      else Ok([WithNamespace(c.value.namespace.value)])
  }

  /**
   * Both generations resolve the current namespace alike: the closure here
   * yields options exactly when the options-API closure accepts, with the
   * same error otherwise, and what it yields is what the other appends.
   */
  lemma {:induction false} CurrentNamespaceAgrees(c: Option<ClientConfig>, ctx: HandlerGo.Context)
    ensures var mine := OnCurrentNamespace(c)();
      var theirs := HandlerOptions.ApplyOption(HandlerOptions.OnCurrentNamespace(c), ctx);
      && (mine.Ok? <==> theirs.err.None?)
      && (mine.Err? ==> theirs.err == Some(mine.error) && theirs.state == ctx)
      && (mine.Ok? ==> theirs.state.informerOpts == ctx.informerOpts + mine.value)
  {
    var mine := OnCurrentNamespace(c)();
    if c.Some? && c.value.namespace.Ok? {
      assert mine == Ok([WithNamespace(c.value.namespace.value)]);
    }
  }

  /** A missing kind reaches NewHandler as a kind option whose closure fails, which aborts the build. */
  lemma {:induction false} NilKindAbortsBuild(w: HandlerGo.Wiring, opts: seq<HandlerGo.Opt>)
    requires HandlerGo.NoApplyError(opts) && HandlerGo.AllRecognised(opts)
    requires HandlerGo.CountKinds(opts) == 1 && HandlerGo.KindOf(opts) == Some(Kind(None)())
    ensures HandlerGo.NewHandlerSpec(w, opts) == Err(KindNil)
  {
    HandlerBuild.NoFailingOption(opts, (), HandlerGo.RunApply);
    HandlerGo.ClassifyCharacterised(opts);
  }
}
