/**
 * The Kubernetes-side collaborators of the engine, as values: watched objects,
 * the raw notification payloads a watch source delivers, errors, and the
 * foreign functions (key derivation, key splitting, informer lookup, calling a
 * user callback) that the engine uses but does not define.
 */
module Kube {

  datatype Option<+T> = None | Some(value: T)

  /** The engine's errors. Messages are the literal texts of the source. */
  datatype Error =
    | Message(text: string)
    | Wrapped(context: string, cause: Error)  // xerrors.Errorf("...: %w", cause)
    | Foreign(code: nat)                      // an error made by a collaborator

  datatype Result<+T> = Ok(value: T) | Err(error: Error)

  /** The metadata of a watched object that the engine reads (metav1.Object). */
  datatype KObject = KObject(
    namespace: string,
    name: string,
    resourceVersion: string,
    isRuntimeObject: bool)  // whether it also satisfies runtime.Object

  /**
   * A raw notification payload (interface{}): an object, a tombstone
   * (cache.DeletedFinalStateUnknown) whose last known state is itself a raw
   * payload, or some other value.
   */
  datatype Raw = Object(obj: KObject) | Tombstone(payload: Raw) | Other(code: nat)

  /** The outcome of an informer lookup (informer.Get). */
  datatype Lookup = Found(obj: KObject) | NotFound(err: Error) | Failed(err: Error)

  /** A non-nil user function; nil is represented by Option's None. */
  datatype Func = Func(id: nat)

  /** A non-nil update policy (UpdateHandlerPolicy). */
  datatype PolicyRef = PolicyRef(id: nat)

  /** The kind binding (kind.Kind): the engine reads its API version and name. */
  datatype KindSpec = KindSpec(apiVersion: string, name: string, clientType: nat)

  /** informers.WithNamespace(ns), the only informer option the core builds. */
  datatype InformerOpt = WithNamespace(namespace: string)

  /**
   * A client configuration (clientcmd.ClientConfig), seen through the one
   * query the engine makes of it: the namespace it resolves to, or an error.
   */
  datatype ClientConfig = ClientConfig(namespace: Result<string>)

  datatype Pair = Pair(namespace: string, name: string)

  /**
   * The foreign partial functions the engine calls: cache.MetaNamespaceKeyFunc,
   * cache.SplitMetaNamespaceKey, informer.Get, and the invocation of a user
   * callback with its context key and object.
   */
  datatype Cluster = Cluster(
    keyOf: KObject -> Result<string>,
    split: string -> Result<Pair>,
    lookup: (string, string) -> Lookup,
    invoke: (Func, string, KObject) -> Option<Error>)

  /** A structured logger (log.Logger) seen from outside: a root and its named segments. */
  datatype Logger = Root(id: nat) | Named(parent: Logger, segment: string)
}
