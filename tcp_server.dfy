/**
  The tunnel table of the node's TCP reverse proxy: `TcpServer` answers
  `TcpDial`, `TcpClose` and `TcpPackage` messages from remote peers by opening,
  dropping and feeding tunnels to its configured hidden services.

  Decoding, connecting to a service and sending a report back are I/O: their
  outcomes are parameters of `HandleMessage`, and what the handler does to the
  outside world is returned as a list of `Action`s.
 */
module TcpServer {
  import opened Wrappers

  /** A tunnel identifier (a UUID in the source). */
  type TunnelId = nat

  /** A peer's ring identifier, here the signer of the incoming message. */
  type Did = nat

  /** Identifies a connected local TCP stream. */
  type StreamId = nat

  type Bytes = seq<bv8>

  datatype SocketAddr = SocketAddr(host: string, port: nat)

  /** `TcpServiceConfig`: a hidden service's name, optional DHT registration name, and address. */
  datatype TcpServiceConfig = TcpServiceConfig(name: string, registerService: Option<string>, addr: SocketAddr)

  /** Why a tunnel could not be opened or was closed; its kinds belong to the proxy module. */
  datatype TunnelDefeat = TunnelDefeat(reason: string)

  datatype TunnelMessage =
    | TcpDial(tid: TunnelId, service: string)
    | TcpClose(tid: TunnelId, reason: TunnelDefeat)
    | TcpPackage(tid: TunnelId, body: Bytes)

  /** A tunnel: `Tunnel::new(tid)` listening on a local stream on behalf of a remote peer. */
  datatype Tunnel = Tunnel(tid: TunnelId, stream: StreamId, remote: Did)

  /** The errors `handle_message` returns. */
  datatype Error =
    | DecodeError
    | InvalidService
    | TunnelError(defeat: TunnelDefeat)
    | SendMessage(reason: string)
    | TunnelNotFound

  /** An event for the message handler; its kinds belong to the message layer. */
  datatype MessageHandlerEvent = MessageHandlerEvent(kind: string)

  /** What `tcp_connect_with_timeout` gave. */
  datatype ConnectOutcome = Connected(stream: StreamId) | ConnectFailed(defeat: TunnelDefeat)

  /** What `send_report_message` gave. */
  datatype SendOutcome = Delivered | SendFailed(reason: string)

  /** What the handler does outside the tunnel table, in order. */
  datatype Action =
    | Connect(addr: SocketAddr)                   // `tcp_connect_with_timeout(addr, ..)`
    | Report(to: Did, msg: TunnelMessage)         // `send_report_message` back to the sender
    | Listen(tunnel: Tunnel)                      // `tunnel.listen(..)`
    | Forward(tunnel: Tunnel, body: Bytes)        // `tunnel.send(body)`

  // ---------------------------------------------------------------------------
  // Service lookup: `eq_ignore_ascii_case`
  // ---------------------------------------------------------------------------

  /** `to_ascii_lowercase` of one character: `A`..`Z` become `a`..`z`, everything else is kept. */
  function ToAsciiLowercase(c: char): char
  {
    if 'A' <= c <= 'Z' then (c as int + 32) as char else c
  }

  function AsciiLowercase(s: string): string
  {
    seq(|s|, i requires 0 <= i < |s| => ToAsciiLowercase(s[i]))
  }

  /**
    `eq_ignore_ascii_case`: same length, and equal character by character once
    ASCII letters are lower-cased; that is, the ASCII-lower-cased strings are equal.
   */
  predicate EqIgnoreAsciiCase(a: string, b: string): (r: bool)
    ensures r <==> AsciiLowercase(a) == AsciiLowercase(b)
  {
    LowercasedEqualPointwise(a, b);
    |a| == |b| && forall i :: 0 <= i < |a| ==> ToAsciiLowercase(a[i]) == ToAsciiLowercase(b[i])
  }

  lemma LowercasedEqualPointwise(a: string, b: string)
    ensures AsciiLowercase(a) == AsciiLowercase(b) ==>
      |a| == |b| && forall i :: 0 <= i < |a| ==> ToAsciiLowercase(a[i]) == ToAsciiLowercase(b[i])
  {
    if AsciiLowercase(a) == AsciiLowercase(b) {
      assert |a| == |AsciiLowercase(a)| == |AsciiLowercase(b)| == |b|;
      forall i | 0 <= i < |a|
        ensures ToAsciiLowercase(a[i]) == ToAsciiLowercase(b[i])
      {
        assert AsciiLowercase(a)[i] == AsciiLowercase(b)[i];
      }
    }
  }

  /**
    `services.iter().find(|x| x.name.eq_ignore_ascii_case(&service))`: the
    position of the first service whose name matches, or `None` when none does.
   */
  function FindService(services: seq<TcpServiceConfig>, name: string): (r: Option<nat>)
    ensures r.Some? ==>
      && r.value < |services|
      && EqIgnoreAsciiCase(services[r.value].name, name)
      && forall j :: 0 <= j < r.value ==> !EqIgnoreAsciiCase(services[j].name, name)
    ensures r.None? ==> forall j :: 0 <= j < |services| ==> !EqIgnoreAsciiCase(services[j].name, name)
    decreases |services|
  {
    if services == [] then None
    else if EqIgnoreAsciiCase(services[0].name, name) then Some(0)
    else
      match FindService(services[1..], name)
      case None => None
      case Some(k) => Some(k + 1)
  }

  /** The lookup sees a requested name only through its ASCII lower case. */
  lemma {:induction false} FindServiceCaseInsensitive(services: seq<TcpServiceConfig>, a: string, b: string)
    requires AsciiLowercase(a) == AsciiLowercase(b)
    ensures FindService(services, a) == FindService(services, b)
    decreases |services|
  {
    if services != [] {
      assert EqIgnoreAsciiCase(services[0].name, a) == EqIgnoreAsciiCase(services[0].name, b);
      FindServiceCaseInsensitive(services[1..], a, b);
    }
  }

  // ---------------------------------------------------------------------------
  // The server
  // ---------------------------------------------------------------------------

  /** `TcpServer`: the configured hidden services and the table of open tunnels. */
  class TcpServer {
    var services: seq<TcpServiceConfig>
    var tunnels: map<TunnelId, Tunnel>

    /** `TcpServer::new`: no tunnels yet. */
    constructor (services: seq<TcpServiceConfig>)
      ensures this.services == services
      ensures tunnels == map[]
    {
      this.services := services;
      tunnels := map[];
    }

    /**
      `handle_message`, for a message signed by `peer` whose payload decoded to
      `decoded`; `connect` and `report` are what connecting to the service and
      reporting a failed connect would give.
     */
    method HandleMessage(peer: Did, decoded: Option<TunnelMessage>, connect: ConnectOutcome, report: SendOutcome)
      returns (r: Result<seq<MessageHandlerEvent>, Error>, actions: seq<Action>)
      modifies this`tunnels
      // every success carries no events; every error leaves the table alone
      ensures r.Ok? ==> r.value == []
      ensures r.Err? ==> tunnels == old(tunnels)
      // only the entry of the message's tunnel can change
      ensures decoded.Some? ==> forall t :: t != decoded.value.tid ==>
        (t in tunnels <==> t in old(tunnels)) && (t in tunnels ==> tunnels[t] == old(tunnels)[t])
      ensures decoded.None? ==> r == Err(DecodeError) && actions == []
      ensures decoded.Some? && decoded.value.TcpDial? ==>
        var tid := decoded.value.tid;
        match FindService(services, decoded.value.service)
        case None => r == Err(InvalidService) && actions == []
        case Some(k) =>
          match connect
          case ConnectFailed(e) =>
            && actions == [Connect(services[k].addr), Report(peer, TcpClose(tid, e))]
            && r == Err(if report.Delivered? then TunnelError(e) else SendMessage(report.reason))
          case Connected(stream) =>
            && actions == [Connect(services[k].addr), Listen(Tunnel(tid, stream, peer))]
            && r == Ok([])
            && tunnels == old(tunnels)[tid := Tunnel(tid, stream, peer)]
      ensures decoded.Some? && decoded.value.TcpClose? ==>
        && r == Ok([])
        && actions == []
        && tunnels == old(tunnels) - {decoded.value.tid}
      ensures decoded.Some? && decoded.value.TcpPackage? ==>
        var tid := decoded.value.tid;
        && tunnels == old(tunnels)
        && (tid in old(tunnels) ==> r == Ok([]) && actions == [Forward(old(tunnels)[tid], decoded.value.body)])
        && (tid !in old(tunnels) ==> r == Err(TunnelNotFound) && actions == [])
    {
      if decoded.None? {
        return Err(DecodeError), [];
      }
      match decoded.value {
        case TcpDial(tid, service) =>
          var found := FindService(services, service);
          if found.None? {
            return Err(InvalidService), [];
          }
          var addr := services[found.value].addr;
          match connect {
            case ConnectFailed(e) =>
              actions := [Connect(addr), Report(peer, TcpClose(tid, e))];
              if report.SendFailed? {
                return Err(SendMessage(report.reason)), actions;
              }
              return Err(TunnelError(e)), actions;
            case Connected(stream) =>
              var tunnel := Tunnel(tid, stream, peer);
              actions := [Connect(addr), Listen(tunnel)];
              tunnels := tunnels[tid := tunnel];
          }
        case TcpClose(tid, _) =>
          tunnels := tunnels - {tid};
          actions := [];
        case TcpPackage(tid, body) =>
          if tid !in tunnels {
            return Err(TunnelNotFound), [];
          }
          actions := [Forward(tunnels[tid], body)];
      }
      r := Ok([]);
    }
  }
}
