/** Which rules a connection, a request and a response select. */
module Selector {
  import opened Wrappers
  import opened Bytes
  import opened Uris
  import opened Headers
  import opened Action

  datatype IpAddr = V4(address: nat) | V6(address: nat)

  datatype SocketAddr = SocketAddr(ip: IpAddr, port: nat)

  /** IPv4 addresses of the side the rules act on. */
  datatype Role = Client(addresses: seq<nat>) | Server(addresses: seq<nat>)

  /** Whether a path matches a wildcard pattern; the matcher is a library's. */
  type Wildcard = (Bytes, Bytes) -> bool

  datatype Selector = Selector(
    port: Option<nat>,
    path: Option<Bytes>,
    verb: Option<Bytes>,
    code: Option<nat>,
    requestHeaders: Option<HeaderMap>,
    responseHeaders: Option<HeaderMap>)

  datatype Target = OnRequest | OnResponse

  datatype Rule = Rule(target: Target, selector: Selector, actions: Actions)

  predicate SelectRole(source: IpAddr, destination: IpAddr, role: Role) {
    && source.V4? && destination.V4?
    && match role
       case Client(addresses) => source.address in addresses
       case Server(addresses) => destination.address in addresses
  }

  /** Every configured value occurs among the header's values. */
  predicate Carries(headers: HeaderMap, fields: Option<HeaderMap>) {
    fields.Some? ==> forall name <- fields.value :: forall value <- fields.value[name] :: value in Get(headers, name)
  }

  predicate SelectRequest(port: nat, m: RequestMessage, s: Selector, wild: Wildcard) {
    && (s.port.Some? ==> port == s.port.value)
    && (s.path.Some? ==> wild(s.path.value, m.uri.Path()))
    && (s.verb.Some? ==> m.verb == s.verb.value)
    && Carries(m.headers, s.requestHeaders)
  }

  predicate SelectResponse(port: nat, uri: Uri, verb: Bytes, headers: HeaderMap, response: ResponseMessage,
                           s: Selector, wild: Wildcard)
  {
    && (s.port.Some? ==> port == s.port.value)
    && (s.path.Some? ==> wild(s.path.value, uri.Path()))
    && (s.verb.Some? ==> verb == s.verb.value)
    && (s.code.Some? ==> response.status == s.code.value)
    && Carries(headers, s.requestHeaders)
    && Carries(response.headers, s.responseHeaders)
  }
}
