/**
 * kontext.go: the context record handed to user callbacks, and the two ways
 * of deriving one from another.
 */
module Kontext {

  import opened Kube

  /** A context.Context, by identity. */
  datatype ContextRef = ContextRef(id: nat)

  /** A kind.Informer, by identity. */
  datatype InformerRef = InformerRef(id: nat)

  datatype Kontext = Kontext(
    context: ContextRef,
    logger: Logger,
    informer: InformerRef,
    namespace: string,
    name: string)

  /** The informer lookup (informer.Get) of each informer. */
  type Informers = (InformerRef, string, string) -> Lookup

  /**
   * SubContext: the same context and informer, a logger named after `name`,
   * and no object (empty namespace and name).
   */
  function SubContext(ktx: Kontext, name: string): (r: Kontext)
    ensures r.context == ktx.context && r.informer == ktx.informer
    ensures r.logger == Named(ktx.logger, name)
    ensures r.namespace == "" && r.name == ""
  {
    Kontext(ktx.context, Named(ktx.logger, name), ktx.informer, "", "")
  }

  /**
   * HandlerContext: the same context and informer, a logger named
   * "<namespace>/<name>", and the object's namespace and name.
   */
  function HandlerContext(ktx: Kontext, namespace: string, name: string): (r: Kontext)
    ensures r.context == ktx.context && r.informer == ktx.informer
    ensures r.logger == Named(ktx.logger, namespace + "/" + name)
    ensures r.namespace == namespace && r.name == name
  {
    Kontext(ktx.context, Named(ktx.logger, namespace + "/" + name), ktx.informer, namespace, name)
  }

  function Namespace(ktx: Kontext): string
  {
    ktx.namespace
  }

  function Name(ktx: Kontext): string
  {
    ktx.name
  }

  /** Object: the informer lookup of the context's own namespace and name. */
  function Object(ktx: Kontext, get: Informers): Lookup
  {
    get(ktx.informer, ktx.namespace, ktx.name)
  }

  /** A handler context reports the object it was made for and looks up exactly that object. */
  lemma HandlerContextQueries(ktx: Kontext, namespace: string, name: string, get: Informers)
    ensures Namespace(HandlerContext(ktx, namespace, name)) == namespace
    ensures Name(HandlerContext(ktx, namespace, name)) == name
    ensures Object(HandlerContext(ktx, namespace, name), get) == get(ktx.informer, namespace, name)
  {
  }

  /** A sub-context has no object: it looks up the empty key in the parent's informer. */
  lemma SubContextQueries(ktx: Kontext, name: string, get: Informers)
    ensures Namespace(SubContext(ktx, name)) == "" && Name(SubContext(ktx, name)) == ""
    ensures Object(SubContext(ktx, name), get) == get(ktx.informer, "", "")
  {
  }

  /** A handler context derived from a sub-context keeps the root's context and informer. */
  lemma HandlerContextOfSubContext(ktx: Kontext, sub: string, namespace: string, name: string)
    ensures var r := HandlerContext(SubContext(ktx, sub), namespace, name);
      && r.context == ktx.context && r.informer == ktx.informer
      && r.logger == Named(Named(ktx.logger, sub), namespace + "/" + name)
  {
  }
}
