/** The connection helpers of the stress tester, reduced to their contract.
    The underlying SSH/SFTP library is not part of this model: the outcome of
    one attempt to open a transport, authenticate and open an SFTP channel is
    an input (`Handshake`), and the helpers turn it into the pair of values
    the Python callers receive. */
module Connector {

  datatype Option<+T> = None | Some(value: T)

  /** An open SFTP client; only its identity matters here. */
  datatype Client = Client(id: nat)

  /** What the library did when asked for a session: it either handed back a
      client or raised an exception with some text. */
  datatype Handshake = Established(client: Client) | Raised(reason: string)

  /** The `(sftp_client, error)` pair that `connect_sftp` returns. */
  datatype ConnectReply = ConnectReply(client: Option<Client>, error: Option<string>)

  const FailurePrefix: string := "SFTP connection failed: "

  /** Python truthiness of an optional string: `None` and `""` are false. */
  predicate Truthy(e: Option<string>)
  {
    e.Some? && |e.value| > 0
  }

  /** `connect_sftp`: a client on success, otherwise no client and an error
      text built from the exception. Exactly one of the two is present, and a
      present error is always truthy, so callers testing `if error:` branch
      on failure exactly. */
  function ConnectSftp(h: Handshake): (r: ConnectReply)
    ensures r.client.Some? != r.error.Some?
    ensures r.client.Some? <==> h.Established?
    ensures h.Established? ==> r.client == Some(h.client)
    ensures Truthy(r.error) <==> h.Raised?
    ensures h.Raised? ==> FailurePrefix <= r.error.value
  {
    match h
    case Established(c) => ConnectReply(Some(c), None)
    case Raised(reason) => ConnectReply(None, Some(FailurePrefix + reason))
  }

  /** The two things `disconnect_sftp` closes: the SFTP channel and the
      transport beneath it. */
  datatype Closable = Channel(owner: Client) | Transport(owner: Client)

  /** What the library does while a client is being closed. The transport
      step covers both reading `sftp_client.transport` and closing it. */
  datatype CloseFault =
    | ClosedCleanly       // both close calls return
    | ChannelRaises       // `sftp_client.close()` raises
    | NoTransport         // the client's transport is falsy
    | TransportRaises     // looking up or closing the transport raises

  /** `disconnect_sftp`: does nothing for `None`; otherwise closes the channel
      and then, if there is one, the transport. An exception from either step
      is logged and swallowed, so the call always returns normally, but an
      exception from the channel step skips the transport step. The result
      lists what was closed, in order. */
  function DisconnectSftp(c: Option<Client>, fault: CloseFault): (closed: seq<Closable>)
    ensures c.None? ==> closed == []
    ensures forall k :: 0 <= k < |closed| ==> c.Some? && closed[k].owner == c.value
    ensures c.Some? ==> (Channel(c.value) in closed <==> !fault.ChannelRaises?)
    ensures c.Some? ==> (Transport(c.value) in closed <==> fault.ClosedCleanly?)
    ensures c.Some? && |closed| > 0 ==> closed[0] == Channel(c.value)
  {
    match c
    case None => []
    case Some(client) =>
      match fault
      case ClosedCleanly => [Channel(client), Transport(client)]
      case ChannelRaises => []
      case NoTransport => [Channel(client)]
      case TransportRaises => [Channel(client)]
  }
}
