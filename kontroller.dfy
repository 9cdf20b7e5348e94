/**
 * kontroller.go: the controller record that handlers are registered with,
 * and its stubs (copy, update policy, client lookup) that the handler
 * construction and the direct-callback adapters depend on.
 */
module Kontroller {

  import opened Kube
  import HandlerEvent

  /** A Kubernetes client (kubernetes.Interface), by identity. */
  datatype ClientRef = ClientRef(id: nat)

  /** The logger fake.New() returns, which NewController installs. */
  const FakeLogger: Logger := Root(0)

  class Kontroller {
    var name: string
    var logger: Logger
    var kube: ClientRef
    var handlers: seq<HandlerEvent.Handler>

    /**
     * NewController: the name and client as given, the fake logger, and no
     * handlers; the variadic options are accepted and ignored.
     */
    constructor (name: string, client: ClientRef, opts: seq<nat>)
      ensures this.name == name && kube == client
      ensures logger == FakeLogger && handlers == []
    {
      this.name := name;
      logger := FakeLogger;
      kube := client;
      handlers := [];
    }

    method SetLogger(l: Logger)
      modifies this
      ensures logger == l
      ensures name == old(name) && kube == old(kube) && handlers == old(handlers)
    {
      logger := l;
    }

    /** Register appends the handlers, in argument order, and never fails. */
    method Register(hs: seq<HandlerEvent.Handler>) returns (err: Option<Error>)
      modifies this
      ensures err == None
      ensures handlers == old(handlers) + hs
      ensures name == old(name) && kube == old(kube) && logger == old(logger)
    {
      handlers := handlers + hs;
      err := None;
    }

    /** copy hands out the controller itself, not a copy of it. */
    function Copy(): (r: Kontroller)
      ensures r == this
    {
      this
    }

    /** setUpdatePolicy is a stub: it accepts a policy and changes nothing. */
    method SetUpdatePolicy(policy: PolicyRef)
      modifies this
      ensures name == old(name) && logger == old(logger)
      ensures kube == old(kube) && handlers == old(handlers)
    {
    }

    /** updatePolicy is a stub that rejects every update. */
    function UpdatePolicy(prev: KObject, curr: KObject): (r: bool)
      ensures !r
    {
      false
    }

    /** client returns the stored client whatever client type is asked for, and never fails. */
    function Client(clientType: nat): (r: Result<ClientRef>)
      reads this
      ensures r.Ok? && r.value == kube
    {
      Ok(kube)
    }
  }
}
