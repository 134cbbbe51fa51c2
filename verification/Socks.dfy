/** SOCKS 4A requests and replies, as the console writes them and the server reads them. */
module Socks {
  import opened Decimals

  type Byte = n: int | 0 <= n < 256

  const CONNECT: Byte := 1

  // Bytes arrive or the connection ends before the last of them: then asio throws.
  datatype Reading<T> = Got(value: T, rest: seq<Byte>) | ClosedEarly

  // The field dst_ip of the source is IpToString(rawDstIp).
  datatype Request = Request(vn: Byte, cd: Byte, dstPort: int, rawDstIp: seq<Byte>, userId: seq<Byte>, domainName: seq<Byte>)

  // ----- addresses -----

  function IpToString(ip: seq<Byte>): string
    requires |ip| == 4
  {
    Decimal(ip[0]) + "." + Decimal(ip[1]) + "." + Decimal(ip[2]) + "." + Decimal(ip[3])
  }

  // 0.0.0.x announces a domain name.
  predicate IsSocks4aIp(ip: seq<Byte>)
    requires |ip| == 4
  {
    ip[0] == 0 && ip[1] == 0 && ip[2] == 0 && ip[3] != 0
  }

  datatype Address = Address(bytes: seq<Byte>) | NoAddress

  function Numbers(parts: seq<string>): (ns: seq<Number>)
    ensures |ns| == |parts| && forall i :: 0 <= i < |parts| ==> ns[i] == Stoi(parts[i])
  {
    seq(|parts|, i requires 0 <= i < |parts| => Stoi(parts[i]))
  }

  function Octets(ns: seq<Number>): (a: Address)
    ensures a.Address? ==> |a.bytes| == |ns|
  {
    if ns == [] then Address([])
    else
      var n := |ns| - 1;
      match (Octets(ns[..n]), ns[n])
      case (Address(bytes), Number(v)) => Address(bytes + [v % 256])
      case _ => NoAddress
  }

  // Anything that is not four pieces is 0.0.0.0; a piece without a number throws.
  function Ipv4(ip: string): Address {
    var parts := Split(ip, '.');
    if |parts| != 4 then Address([0, 0, 0, 0]) else Octets(Numbers(parts))
  }

  method ParseIpv4(ip: string) returns (address: Address)
    ensures address == Ipv4(ip)
  {
    var parts := Split(ip, '.');
    if |parts| != 4 {
      return Address([0, 0, 0, 0]);
    }
    ghost var ns := Numbers(parts);
    var bytes: seq<Byte> := [];
    for i := 0 to |parts|
      invariant Octets(ns[..i]) == Address(bytes)
    {
      assert ns[..i + 1][..i] == ns[..i];
      var number := Stoi(parts[i]);
      assert number == ns[i];
      if number == NoNumber {
        OctetsFail(ns, i);
        return NoAddress;
      }
      bytes := bytes + [number.value % 256];
    }
    assert ns[..|parts|] == ns;
    return Address(bytes);
  }

  lemma {:induction false} OctetsFail(ns: seq<Number>, i: nat)
    requires i < |ns| && ns[i] == NoNumber
    ensures Octets(ns) == NoAddress
  {
    if i < |ns| - 1 { OctetsFail(ns[..|ns| - 1], i); }
  }

  lemma {:induction false} OctetsOfBytes(ns: seq<Number>, bytes: seq<Byte>)
    requires |ns| == |bytes| && forall i :: 0 <= i < |ns| ==> ns[i] == Number(bytes[i])
    ensures Octets(ns) == Address(bytes)
  {
    if ns != [] {
      var n := |ns| - 1;
      OctetsOfBytes(ns[..n], bytes[..n]);
      assert ns[n] == Number(bytes[n]);
      assert bytes == bytes[..n] + [bytes[n]];
    }
  }

  // Every address is found again from its text.
  lemma AddressRoundTrip(ip: seq<Byte>)
    requires |ip| == 4
    ensures Ipv4(IpToString(ip)) == Address(ip)
  {
    var parts := [Decimal(ip[0]), Decimal(ip[1]), Decimal(ip[2]), Decimal(ip[3])];
    FourJoined(parts);
    forall i | 0 <= i < 4 ensures '.' !in parts[i] {
      assert forall j :: 0 <= j < |parts[i]| ==> IsDigit(parts[i][j]);
    }
    SplitJoin(parts, '.');
    forall i | 0 <= i < 4 ensures Numbers(parts)[i] == Number(ip[i]) {
      StoiOfDecimal(ip[i]);
    }
    OctetsOfBytes(Numbers(parts), ip);
  }

  lemma FourJoined(parts: seq<string>)
    requires |parts| == 4
    ensures Join(parts, '.') == parts[0] + "." + parts[1] + "." + parts[2] + "." + parts[3]
  {
    var tail := parts[1..];
    assert tail[1..] == parts[2..] && tail[1..][1..] == parts[3..];
    assert Join(parts[3..], '.') == parts[3];
    assert Join(parts[2..], '.') == parts[2] + "." + parts[3];
    assert Join(tail, '.') == parts[1] + "." + (parts[2] + "." + parts[3]);
  }

  // ----- requests -----

  // The two bytes of a port, the higher first.
  function High(port: int): Byte
    requires 0 <= port < 65536
  {
    port / 256
  }

  function Low(port: int): Byte {
    port % 256
  }

  function Port(high: Byte, low: Byte): (port: int)
    ensures 0 <= port < 65536 && High(port) == high && Low(port) == low
  {
    (high as int) * 256 + low
  }

  lemma PortOfBytes(port: int)
    requires 0 <= port < 65536
    ensures Port(High(port), Low(port)) == port
  {
  }

  // Up to the next zero byte.
  function Terminated(stream: seq<Byte>): Reading<seq<Byte>> {
    if stream == [] then ClosedEarly
    else if stream[0] == 0 then Got([], stream[1..])
    else match Terminated(stream[1..])
      case ClosedEarly => ClosedEarly
      case Got(value, rest) => Got([stream[0]] + value, rest)
  }

  method ReadNullTerminated(stream: seq<Byte>) returns (r: Reading<seq<Byte>>)
    ensures r == Terminated(stream)
  {
    var value: seq<Byte> := [];
    var i := 0;
    assert stream[0..] == stream;
    PrefixedNothing(Terminated(stream));
    while true
      invariant 0 <= i <= |stream|
      invariant Terminated(stream) == Prefixed(value, Terminated(stream[i..]))
      decreases |stream| - i
    {
      if i == |stream| {
        return ClosedEarly;
      }
      var ch := stream[i];
      assert stream[i..][1..] == stream[i + 1..];
      if ch == 0 {
        assert value + [] == value;
        return Got(value, stream[i + 1..]);
      }
      PrefixedSnoc(value, ch, Terminated(stream[i + 1..]));
      value := value + [ch];
      i := i + 1;
    }
  }

  function Prefixed(prefix: seq<Byte>, r: Reading<seq<Byte>>): Reading<seq<Byte>> {
    match r
    case ClosedEarly => ClosedEarly
    case Got(value, rest) => Got(prefix + value, rest)
  }

  lemma PrefixedNothing(r: Reading<seq<Byte>>)
    ensures Prefixed([], r) == r
  {
    if r.Got? { assert [] + r.value == r.value; }
  }

  lemma PrefixedSnoc(prefix: seq<Byte>, b: Byte, r: Reading<seq<Byte>>)
    ensures Prefixed(prefix, Prefixed([b], r)) == Prefixed(prefix + [b], r)
  {
    if r.Got? { assert prefix + ([b] + r.value) == prefix + [b] + r.value; }
  }

  // The header, a user id, and a domain name if the address announces one.
  method ReadSocksRequest(stream: seq<Byte>) returns (r: Reading<Request>)
    ensures r == Received(stream)
  {
    if |stream| < 8 {
      return ClosedEarly;
    }
    var header := stream[..8];
    var ip := [header[4], header[5], header[6], header[7]];
    var userId := ReadNullTerminated(stream[8..]);
    if userId.ClosedEarly? {
      return ClosedEarly;
    }
    var request := Request(header[0], header[1], Port(header[2], header[3]), ip, userId.value, []);
    if IsSocks4aIp(ip) {
      var domainName := ReadNullTerminated(userId.rest);
      if domainName.ClosedEarly? {
        return ClosedEarly;
      }
      return Got(request.(domainName := domainName.value), domainName.rest);
    }
    return Got(request, userId.rest);
  }

  function Received(stream: seq<Byte>): Reading<Request> {
    if |stream| < 8 then ClosedEarly
    else
      var ip := [stream[4], stream[5], stream[6], stream[7]];
      match Terminated(stream[8..])
      case ClosedEarly => ClosedEarly
      case Got(userId, rest) =>
        var request := Request(stream[0], stream[1], Port(stream[2], stream[3]), ip, userId, []);
        if !IsSocks4aIp(ip) then Got(request, rest)
        else match Terminated(rest)
          case ClosedEarly => ClosedEarly
          case Got(domainName, rest') => Got(request.(domainName := domainName), rest')
  }

  function Header(q: Request): seq<Byte>
    requires Proper(q)
  {
    [q.vn, q.cd, High(q.dstPort), Low(q.dstPort), q.rawDstIp[0], q.rawDstIp[1], q.rawDstIp[2], q.rawDstIp[3]]
  }

  // The bytes of a request.
  function Encoded(q: Request): seq<Byte>
    requires Proper(q)
  {
    Header(q) + (q.userId + [0] + DomainPart(q))
  }

  function DomainPart(q: Request): seq<Byte>
    requires Proper(q)
  {
    if IsSocks4aIp(q.rawDstIp) then q.domainName + [0] else []
  }

  predicate Proper(q: Request) {
    && 0 <= q.dstPort < 65536 && |q.rawDstIp| == 4
    && 0 !in q.userId && 0 !in q.domainName
    && (!IsSocks4aIp(q.rawDstIp) ==> q.domainName == [])
  }

  lemma {:induction false} TerminatedReads(value: seq<Byte>, rest: seq<Byte>)
    requires 0 !in value
    ensures Terminated(value + [0] + rest) == Got(value, rest)
  {
    var s := value + [0] + rest;
    if value == [] {
      assert s[1..] == rest;
    } else {
      TerminatedReads(value[1..], rest);
      assert s[1..] == value[1..] + [0] + rest;
      assert value == [value[0]] + value[1..];
    }
  }

  lemma {:induction false} TerminatedFound(stream: seq<Byte>)
    requires Terminated(stream).Got?
    ensures var r := Terminated(stream); 0 !in r.value && stream == r.value + [0] + r.rest
  {
    if stream[0] != 0 { TerminatedFound(stream[1..]); }
  }

  // A request is read back whatever follows it, and nothing of what follows is touched.
  lemma RequestReadsBack(q: Request, suffix: seq<Byte>)
    requires Proper(q)
    ensures Received(Encoded(q) + suffix) == Got(q, suffix)
  {
    var s := Encoded(q) + suffix;
    assert s == Header(q) + (q.userId + [0] + (DomainPart(q) + suffix));
    assert s[8..] == q.userId + [0] + (DomainPart(q) + suffix);
    TerminatedReads(q.userId, DomainPart(q) + suffix);
    assert [s[4], s[5], s[6], s[7]] == q.rawDstIp;
    PortOfBytes(q.dstPort);
    if IsSocks4aIp(q.rawDstIp) {
      TerminatedReads(q.domainName, suffix);
      assert DomainPart(q) + suffix == q.domainName + [0] + suffix;
    } else {
      assert DomainPart(q) + suffix == suffix;
    }
  }

  // In bytes: an ordinary address, or 0.0.0.0, is followed by a user id only.
  lemma PlainRequestRead(vn: Byte, cd: Byte, high: Byte, low: Byte, a: Byte, b: Byte, c: Byte, d: Byte, user: seq<Byte>, suffix: seq<Byte>)
    requires 0 !in user && (a != 0 || b != 0 || c != 0 || d == 0)
    ensures Received([vn, cd, high, low, a, b, c, d] + user + [0] + suffix) ==
            Got(Request(vn, cd, 256 * high + low, [a, b, c, d], user, []), suffix)
  {
    var header := [vn, cd, high, low, a, b, c, d];
    var s := header + user + [0] + suffix;
    assert s[8..] == user + [0] + suffix;
    TerminatedReads(user, suffix);
    assert s[..8] == header && [s[4], s[5], s[6], s[7]] == [a, b, c, d];
  }

  // An address 0.0.0.d with d other than 0 is followed by a user id and a name.
  lemma NamedRequestRead(vn: Byte, cd: Byte, high: Byte, low: Byte, d: Byte, user: seq<Byte>, name: seq<Byte>, suffix: seq<Byte>)
    requires 0 !in user && 0 !in name && d != 0
    ensures Received([vn, cd, high, low, 0, 0, 0, d] + user + [0] + name + [0] + suffix) ==
            Got(Request(vn, cd, 256 * high + low, [0, 0, 0, d], user, name), suffix)
  {
    var header := [vn, cd, high, low, 0, 0, 0, d];
    var s := header + user + [0] + name + [0] + suffix;
    assert s[8..] == user + [0] + (name + [0] + suffix);
    TerminatedReads(user, name + [0] + suffix);
    TerminatedReads(name, suffix);
    assert s[..8] == header && [s[4], s[5], s[6], s[7]] == [0, 0, 0, d];
  }

  lemma ReceivedParts(stream: seq<Byte>)
    requires Received(stream).Got?
    ensures var r := Received(stream); var first := Terminated(stream[8..]);
      && first.Got? && Proper(r.value) && stream[..8] == Header(r.value) && r.value.userId == first.value
      && first.rest == DomainPart(r.value) + r.rest
  {
    var first := Terminated(stream[8..]);
    TerminatedFound(stream[8..]);
    if IsSocks4aIp([stream[4], stream[5], stream[6], stream[7]]) { TerminatedFound(first.rest); }
  }

  // Whatever was read is a proper request, and its bytes are exactly the ones consumed.
  lemma ReadRequestsEncode(stream: seq<Byte>)
    requires Received(stream).Got?
    ensures var r := Received(stream); Proper(r.value) && stream == Encoded(r.value) + r.rest
  {
    var r := Received(stream);
    ReceivedParts(stream);
    TerminatedFound(stream[8..]);
    RegroupBytes(stream, Header(r.value), r.value.userId, DomainPart(r.value), r.rest);
  }

  lemma RegroupBytes(stream: seq<Byte>, header: seq<Byte>, userId: seq<Byte>, domain: seq<Byte>, rest: seq<Byte>)
    requires |stream| >= 8 && stream[..8] == header && stream[8..] == userId + [0] + (domain + rest)
    ensures stream == header + (userId + [0] + domain) + rest
  {
    assert stream == stream[..8] + stream[8..];
    assert userId + [0] + (domain + rest) == userId + [0] + domain + rest;
  }

  const NAMED: seq<Byte> := [0, 0, 0, 1]

  // What the console asks for: version 4, CONNECT, a port and a host by name.
  function Asking(host: seq<Byte>, port: int): Request {
    Request(4, CONNECT, port, NAMED, [], host)
  }

  // What a client sends for a host name and the number read from its port field.
  method BuildSocks4aRequest(host: seq<Byte>, portField: int) returns (request: seq<Byte>)
    requires 0 !in host
    ensures request == Encoded(Asking(host, portField % 65536))
    ensures request == [4, 1, portField % 65536 / 256, portField % 256, 0, 0, 0, 1, 0] + host + [0]
  {
    var port := portField % 65536;
    request := [4];
    request := request + [1];
    request := request + [High(port)];
    request := request + [Low(port)];
    request := request + [0];
    request := request + [0];
    request := request + [0];
    request := request + [1];
    request := request + [0];
    request := request + host;
    request := request + [0];
    assert Header(Asking(host, port)) == [4, 1, High(port), Low(port), 0, 0, 0, 1];
    assert request == Header(Asking(host, port)) + ([] + [0] + (host + [0]));
  }

  // What the console asks for is what the server understands, and the server leaves what follows unread.
  method Negotiate(host: seq<Byte>, port: int, suffix: seq<Byte>) returns (r: Reading<Request>)
    requires 0 !in host && 0 <= port < 65536
    ensures r == Got(Asking(host, port), suffix)
  {
    var request := BuildSocks4aRequest(host, port);
    assert port % 65536 == port;
    r := ReadBack(request, Asking(host, port), suffix);
  }

  method ReadBack(request: seq<Byte>, ghost q: Request, suffix: seq<Byte>) returns (r: Reading<Request>)
    requires Proper(q) && request == Encoded(q)
    ensures r == Got(q, suffix)
  {
    RequestReadsBack(q, suffix);
    r := ReadSocksRequest(request + suffix);
  }

  // ----- replies -----

  datatype Reply = Packet(bytes: seq<Byte>) | NotSent

  method WriteSocksReply(reply: Byte, port: int, ip: string) returns (packet: Reply)
    requires 0 <= port < 65536
    ensures packet == match Ipv4(ip)
                      case NoAddress => NotSent
                      case Address(b) => Packet([0, reply, port / 256, port % 256] + b)
  {
    var address := ParseIpv4(ip);
    match address {
      case NoAddress => return NotSent;
      case Address(b) =>
        assert b == [b[0], b[1], b[2], b[3]];
        return Packet([0, reply, High(port), Low(port), b[0], b[1], b[2], b[3]]);
    }
  }
}
