/**
 * gapi/metadata.go: the user agent and client address of a gRPC call, read
 * from the incoming metadata and the peer. Later sources overwrite earlier
 * ones: the plain user-agent key wins over the gateway's, and the peer wins
 * over the forwarded-for header.
 */
module GapiMetadata {
  import opened Common

  const GatewayUserAgentKey: string := "grpcgateway-user-agent"
  const ForwardedForKey: string := "x-forwarded-for"
  const UserAgentKey: string := "user-agent"

  /** metadata.MD: lower-case keys, each with its values in order. */
  type Metadata = map<string, seq<string>>

  /** The endpoints of the connection the call came in on. */
  datatype Peer = Peer(addr: string, localAddr: string)

  /** What a context.Context carries for extractMetaData: the metadata and the peer, when present. */
  datatype IncomingContext = IncomingContext(md: Option<Metadata>, peer: Option<Peer>)

  datatype MetaData = MetaData(userAgent: string, clientIp: string)

  /** md.Get: the values under a key, none when it is absent. */
  function Get(md: Metadata, key: string): (r: seq<string>)
    ensures key !in md ==> r == []
    ensures key in md ==> r == md[key]
  {
    if key in md then md[key] else []
  }

  /** The first value under `key`, when the metadata is present and the key has one. */
  function FirstValue(md: Option<Metadata>, key: string): (r: Option<string>)
    ensures r.Some? <==> md.Some? && |Get(md.value, key)| > 0
    ensures r.Some? ==> r.value == Get(md.value, key)[0]
  {
    if md.Some? && |Get(md.value, key)| > 0 then Some(Get(md.value, key)[0]) else None
  }

  /** The value left by a run of overwrites: the last source that has one, or `init` when none has. */
  function Latest(init: string, sources: seq<Option<string>>): (r: string)
    ensures (forall i :: 0 <= i < |sources| ==> sources[i].None?) ==> r == init
    ensures |sources| > 0 && sources[|sources| - 1].Some? ==> r == sources[|sources| - 1].value
    ensures r == init || exists i :: 0 <= i < |sources| && sources[i] == Some(r)
  {
    if |sources| == 0 then init
    else if sources[|sources| - 1].Some? then sources[|sources| - 1].value
    else Latest(init, sources[..|sources| - 1])
  }

  /** The address the peer reports, as extractMetaData reads it: the local end. */
  function PeerAddress(peer: Option<Peer>): (r: Option<string>)
    ensures r.Some? <==> peer.Some?
    ensures r.Some? ==> r.value == peer.value.localAddr
  {
    if peer.Some? then Some(peer.value.localAddr) else None
  }

  /** What extractMetaData reports: each field's sources in the order the code reads them. */
  function Reported(ctx: IncomingContext): MetaData {
    MetaData(Latest("", [FirstValue(ctx.md, GatewayUserAgentKey), FirstValue(ctx.md, UserAgentKey)]),
             Latest("", [FirstValue(ctx.md, ForwardedForKey), PeerAddress(ctx.peer)]))
  }

  /**
   * extractMetaData. Each field starts empty and is overwritten, in source
   * order, by every source that has a value; the client address is the
   * peer's LOCAL address, that is the server's end of the connection.
   */
  method ExtractMetaData(ctx: IncomingContext) returns (mtd: MetaData)
    ensures mtd == Reported(ctx)
    ensures FirstValue(ctx.md, UserAgentKey).Some? ==> mtd.userAgent == FirstValue(ctx.md, UserAgentKey).value
    ensures FirstValue(ctx.md, UserAgentKey).None? && FirstValue(ctx.md, GatewayUserAgentKey).Some? ==>
      mtd.userAgent == FirstValue(ctx.md, GatewayUserAgentKey).value
    ensures FirstValue(ctx.md, UserAgentKey).None? && FirstValue(ctx.md, GatewayUserAgentKey).None? ==>
      mtd.userAgent == ""
    ensures ctx.peer.Some? ==> mtd.clientIp == ctx.peer.value.localAddr
    ensures ctx.peer.None? && FirstValue(ctx.md, ForwardedForKey).Some? ==>
      mtd.clientIp == FirstValue(ctx.md, ForwardedForKey).value
    ensures ctx.peer.None? && FirstValue(ctx.md, ForwardedForKey).None? ==> mtd.clientIp == ""
  {
    mtd := MetaData("", "");
    if ctx.md.Some? {
      var md := ctx.md.value;
      var userAgents := Get(md, GatewayUserAgentKey);
      if |userAgents| > 0 {
        mtd := mtd.(userAgent := userAgents[0]);
      }
      userAgents := Get(md, UserAgentKey);
      if |userAgents| > 0 {
        mtd := mtd.(userAgent := userAgents[0]);
      }
      var clientIps := Get(md, ForwardedForKey);
      if |clientIps| > 0 {
        mtd := mtd.(clientIp := clientIps[0]);
      }
    }
    if ctx.peer.Some? {
      mtd := mtd.(clientIp := ctx.peer.value.localAddr);
    }
  }

  /**
   * With a peer present the reported client address is the server's own
   * end of the connection, not the client's: here a client at
   * 203.0.113.7:51234 is reported as 10.0.0.2:9090.
   */
  lemma PeerReportsLocalAddress()
    ensures var p := Peer("203.0.113.7:51234", "10.0.0.2:9090");
      var r := Reported(IncomingContext(None, Some(p)));
      r.clientIp == p.localAddr && r.clientIp != p.addr
  {
    var p := Peer("203.0.113.7:51234", "10.0.0.2:9090");
    assert PeerAddress(Some(p)) == Some(p.localAddr);
    assert p.localAddr[0] != p.addr[0];
  }

  /**
   * extractMetaData as its comment intends: the client address from the
   * peer is the remote end of the connection.
   */
  method ExtractClientMetaData(ctx: IncomingContext) returns (mtd: MetaData)
    ensures ctx.peer.Some? ==> mtd.clientIp == ctx.peer.value.addr
    ensures ctx.peer.None? && FirstValue(ctx.md, ForwardedForKey).Some? ==>
      mtd.clientIp == FirstValue(ctx.md, ForwardedForKey).value
    ensures ctx.peer.None? && FirstValue(ctx.md, ForwardedForKey).None? ==> mtd.clientIp == ""
    ensures FirstValue(ctx.md, UserAgentKey).Some? ==> mtd.userAgent == FirstValue(ctx.md, UserAgentKey).value
    ensures FirstValue(ctx.md, UserAgentKey).None? && FirstValue(ctx.md, GatewayUserAgentKey).Some? ==>
      mtd.userAgent == FirstValue(ctx.md, GatewayUserAgentKey).value
    ensures FirstValue(ctx.md, UserAgentKey).None? && FirstValue(ctx.md, GatewayUserAgentKey).None? ==>
      mtd.userAgent == ""
  {
    mtd := ExtractMetaData(ctx);
    if ctx.peer.Some? {
      mtd := mtd.(clientIp := ctx.peer.value.addr);
    }
  }
}
