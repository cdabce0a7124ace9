/** PROXY protocol version 2: the encoder of `src/proxy/proxy_protocol.rs`, and a receiver
    written from section 2.2 ("Binary header format (version 2)") of "The PROXY protocol,
    Versions 1 & 2", to which the encoder is held. */
module ProxyProtocol {
  import opened Machine
  import opened Net

  const SIGNATURE: Bytes := [0x0D, 0x0A, 0x0D, 0x0A, 0x00, 0x0D, 0x0A, 0x51, 0x55, 0x49, 0x54, 0x0A]
  const VER_CMD_PROXY: byte := 0x21
  const VER_CMD_LOCAL: byte := 0x20
  const TP_TCP4: byte := 0x11
  const TP_TCP6: byte := 0x21
  const TP_UNSPEC: byte := 0x00

  function Be16(x: u16): Bytes {
    [x / 256, x % 256]
  }

  const MAPPED_PREFIX: Bytes := [0, 0, 0, 0, 0, 0, 0, 0, 0, 0, 0xFF, 0xFF]

  /** `IpAddr::to_canonical`: an IPv4-mapped IPv6 address is the IPv4 address inside it. */
  function Canonical(ip: IpAddr): IpAddr {
    if ip.V6? && ip.v6[..12] == MAPPED_PREFIX then V4(ip.v6[12..]) else ip
  }

  // ── Sender ────────────────────────────────────────────────────────────────

  function Header(src: SocketAddr, dst: SocketAddr): Bytes {
    match (Canonical(src.ip), Canonical(dst.ip))
    case (V4(s), V4(d)) =>
      SIGNATURE + [VER_CMD_PROXY, TP_TCP4] + Be16(12) + s + d + Be16(src.port) + Be16(dst.port)
    case (V6(s), V6(d)) =>
      SIGNATURE + [VER_CMD_PROXY, TP_TCP6] + Be16(36) + s + d + Be16(src.port) + Be16(dst.port)
    case _ =>
      SIGNATURE + [VER_CMD_LOCAL, TP_UNSPEC] + Be16(0)
  }

  /** `v2_header`: the buffer is filled piece by piece. Whatever follows it on the wire, a
      receiver reads back the announcement and stops exactly at the end of the buffer. */
  method V2Header(src: SocketAddr, dst: SocketAddr) returns (buf: Bytes)
    ensures buf == Header(src, dst)
    ensures forall payload: Bytes :: Receive(buf + payload) == Accepted(Announcement(src, dst), payload)
  {
    buf := SIGNATURE;
    match (Canonical(src.ip), Canonical(dst.ip)) {
      case (V4(s), V4(d)) =>
        buf := buf + [VER_CMD_PROXY];
        buf := buf + [TP_TCP4];
        buf := buf + Be16(12);
        buf := buf + s;
        buf := buf + d;
        buf := buf + Be16(src.port);
        buf := buf + Be16(dst.port);
      case (V6(s), V6(d)) =>
        buf := buf + [VER_CMD_PROXY];
        buf := buf + [TP_TCP6];
        buf := buf + Be16(36);
        buf := buf + s;
        buf := buf + d;
        buf := buf + Be16(src.port);
        buf := buf + Be16(dst.port);
      case _ =>
        buf := buf + [VER_CMD_LOCAL];
        buf := buf + [TP_UNSPEC];
        buf := buf + Be16(0);
    }
    assert buf == Header(src, dst);
    forall payload: Bytes ensures Receive(buf + payload) == Accepted(Announcement(src, dst), payload) {
      ReceiverReadsBack(src, dst, payload);
    }
  }

  // ── Receiver ──────────────────────────────────────────────────────────────

  /** What a version 2 header tells the receiver. `Local` means "use the real peer"; `Other`
      is a PROXY command for a family or transport without IP socket addresses here. */
  datatype Announced =
    | Local
    | Tcp(src: SocketAddr, dst: SocketAddr)
    | Udp(src: SocketAddr, dst: SocketAddr)
    | Other(family: nat, transport: nat)

  datatype Receipt =
    | NeedMore
    | Malformed
    | Accepted(announced: Announced, rest: Bytes)

  /** The receiver's own copy of the signature: CR LF CR LF NUL CR LF "QUIT" LF. */
  const MAGIC: Bytes := [13, 10, 13, 10, 0, 13, 10, 81, 85, 73, 84, 10]

  function U16At(s: Bytes, i: nat): u16
    requires i + 2 <= |s|
  {
    (s[i] as int) * 256 + s[i + 1] as int
  }

  /** Section 2.2: 12 signature bytes; version and command nibbles; family and transport
      nibbles; the 16-bit length of everything that follows; the address block, of which any
      bytes beyond the addresses are additional vectors and are skipped. For LOCAL a receiver must
      skip the whole block and ignore the family; unknown commands, families and transports
      must be rejected. */
  function Receive(s: Bytes): Receipt {
    if |s| < 12 then (if s == MAGIC[..|s|] then NeedMore else Malformed)
    else if s[..12] != MAGIC then Malformed
    else if |s| < 16 then NeedMore
    else
      var version, command := s[12] / 16, s[12] % 16;
      var family, transport := s[13] / 16, s[13] % 16;
      var len := U16At(s, 14);
      if version != 2 || command > 1 || (command == 1 && (family > 3 || transport > 2)) then Malformed
      else if |s| < 16 + len then NeedMore
      else
        var block, rest := s[16..16 + len], s[16 + len..];
        if command == 0 then Accepted(Local, rest)
        else
          match Addresses(family, block)
          case None => if family == 0 || family == 3 then Accepted(Other(family, transport), rest) else Malformed
          case Some((src, dst)) =>
            if transport == 1 then Accepted(Tcp(src, dst), rest)
            else if transport == 2 then Accepted(Udp(src, dst), rest)
            else Accepted(Other(family, transport), rest)
  }

  function Addresses(family: nat, block: Bytes): Option<(SocketAddr, SocketAddr)> {
    if family == 1 && |block| >= 12 then
      Some((SocketAddr(V4(block[..4]), U16At(block, 8)), SocketAddr(V4(block[4..8]), U16At(block, 10))))
    else if family == 2 && |block| >= 36 then
      Some((SocketAddr(V6(block[..16]), U16At(block, 32)), SocketAddr(V6(block[16..32]), U16At(block, 34))))
    else
      None
  }

  // ── Agreement ─────────────────────────────────────────────────────────────

  predicate SameFamily(a: IpAddr, b: IpAddr) {
    a.V4? <==> b.V4?
  }

  /** The address a backend should see: the IPv4 address inside `::ffff:a.b.c.d`, and any other
      address as it is. */
  function Meant(ip: IpAddr): IpAddr {
    if ip.V6? && (forall i :: 0 <= i < 10 ==> ip.v6[i] == 0) && ip.v6[10] == 255 && ip.v6[11] == 255
    then V4([ip.v6[12], ip.v6[13], ip.v6[14], ip.v6[15]])
    else ip
  }

  /** The promise of the encoder: the addresses meant, with their ports, when they share a
      family, and otherwise the command that sends the receiver back to the TCP peer. */
  function Announcement(src: SocketAddr, dst: SocketAddr): Announced {
    var s, d := Meant(src.ip), Meant(dst.ip);
    if SameFamily(s, d) then Tcp(SocketAddr(s, src.port), SocketAddr(d, dst.port)) else Local
  }

  lemma CanonicalIsMeant(ip: IpAddr)
    ensures Canonical(ip) == Meant(ip)
  {
    if ip.V6? {
      assert ip.v6[..12] == MAPPED_PREFIX <==>
             (forall i :: 0 <= i < 10 ==> ip.v6[i] == 0) && ip.v6[10] == 255 && ip.v6[11] == 255 by {
        assert forall i :: 0 <= i < 12 ==> ip.v6[..12][i] == ip.v6[i];
        if ip.v6[..12] == MAPPED_PREFIX {
          assert forall i :: 0 <= i < 10 ==> ip.v6[i] == MAPPED_PREFIX[i];
        }
      }
      assert ip.v6[12..] == [ip.v6[12], ip.v6[13], ip.v6[14], ip.v6[15]];
    }
  }

  /** `ip` is `::ffff:` followed by the four bytes of `a`, or is no such address and is `a`. */
  ghost predicate StandsFor(ip: IpAddr, a: IpAddr) {
    || (a.V4? && ip == V6([0, 0, 0, 0, 0, 0, 0, 0, 0, 0, 0xFF, 0xFF] + a.v4))
    || (ip == a && forall v: Octets4 :: ip != V6([0, 0, 0, 0, 0, 0, 0, 0, 0, 0, 0xFF, 0xFF] + v))
  }

  lemma MappedMeansV4(v: Octets4)
    ensures Meant(V6([0, 0, 0, 0, 0, 0, 0, 0, 0, 0, 0xFF, 0xFF] + v)) == V4(v)
  {
    assert v == [v[0], v[1], v[2], v[3]];
  }

  lemma OnlyMappedChanges(ip: IpAddr)
    ensures Meant(ip) != ip ==>
              Meant(ip).V4? && ip == V6([0, 0, 0, 0, 0, 0, 0, 0, 0, 0, 0xFF, 0xFF] + Meant(ip).v4)
  {
    if Meant(ip) != ip {
      assert ip.v6 == [0, 0, 0, 0, 0, 0, 0, 0, 0, 0, 0xFF, 0xFF] + Meant(ip).v4;
    }
  }

  lemma MeantIsStoodFor(ip: IpAddr, a: IpAddr)
    requires StandsFor(ip, a)
    ensures Meant(ip) == a
  {
    OnlyMappedChanges(ip);
    if a.V4? {
      MappedMeansV4(a.v4);
    }
  }

  /** Address by address: a mapped IPv4 address on either side reaches the receiver as that IPv4
      address, every other one unchanged, each with its side's port; LOCAL results exactly when
      the two are then of different families. */
  lemma ReceiverSees(src: SocketAddr, dst: SocketAddr, a: IpAddr, b: IpAddr, payload: Bytes)
    requires StandsFor(src.ip, a) && StandsFor(dst.ip, b)
    ensures Receive(Header(src, dst) + payload) ==
            Accepted(if a.V4? <==> b.V4? then Tcp(SocketAddr(a, src.port), SocketAddr(b, dst.port)) else Local, payload)
  {
    MeantIsStoodFor(src.ip, a);
    MeantIsStoodFor(dst.ip, b);
    ReceiverReadsBack(src, dst, payload);
  }

  /** Every address stands for exactly one. */
  lemma EveryAddressStands(ip: IpAddr)
    ensures StandsFor(ip, Meant(ip)) && forall a :: StandsFor(ip, a) ==> a == Meant(ip)
  {
    OnlyMappedChanges(ip);
    forall v: Octets4 ensures Meant(V6([0, 0, 0, 0, 0, 0, 0, 0, 0, 0, 0xFF, 0xFF] + v)) == V4(v) {
      MappedMeansV4(v);
    }
    forall a | StandsFor(ip, a) ensures a == Meant(ip) {
      MeantIsStoodFor(ip, a);
    }
  }

  /** Round trip, for all addresses and any bytes that follow. */
  lemma ReceiverReadsBack(src: SocketAddr, dst: SocketAddr, payload: Bytes)
    ensures Receive(Header(src, dst) + payload) == Accepted(Announcement(src, dst), payload)
  {
    CanonicalIsMeant(src.ip);
    CanonicalIsMeant(dst.ip);
    match (Canonical(src.ip), Canonical(dst.ip)) {
      case (V4(a), V4(b)) =>
        var block := a + b + Be16(src.port) + Be16(dst.port);
        assert Header(src, dst) == Framed(VER_CMD_PROXY, TP_TCP4, block);
        FramedReadsBack(VER_CMD_PROXY, TP_TCP4, block, payload);
        BlockV4(a, b, src.port, dst.port);
      case (V6(a), V6(b)) =>
        var block := a + b + Be16(src.port) + Be16(dst.port);
        assert Header(src, dst) == Framed(VER_CMD_PROXY, TP_TCP6, block);
        FramedReadsBack(VER_CMD_PROXY, TP_TCP6, block, payload);
        BlockV6(a, b, src.port, dst.port);
      case _ =>
        assert Header(src, dst) == Framed(VER_CMD_LOCAL, TP_UNSPEC, []);
        FramedReadsBack(VER_CMD_LOCAL, TP_UNSPEC, [], payload);
    }
  }

  function Framed(verCmd: byte, famTp: byte, block: Bytes): Bytes
    requires |block| < 0x1_0000
  {
    SIGNATURE + [verCmd, famTp] + Be16(|block|) + block
  }

  lemma BlockV4(a: Octets4, b: Octets4, p: u16, q: u16)
    ensures Addresses(1, a + b + Be16(p) + Be16(q)) == Some((SocketAddr(V4(a), p), SocketAddr(V4(b), q)))
  {
    var block := a + b + Be16(p) + Be16(q);
    assert block[..4] == a && block[4..8] == b;
  }

  lemma BlockV6(a: Octets16, b: Octets16, p: u16, q: u16)
    ensures Addresses(2, a + b + Be16(p) + Be16(q)) == Some((SocketAddr(V6(a), p), SocketAddr(V6(b), q)))
  {
    var block := a + b + Be16(p) + Be16(q);
    assert block[..16] == a && block[16..32] == b;
  }

  /** What the receiver makes of a framed TCP or LOCAL header. */
  lemma FramedReadsBack(verCmd: byte, famTp: byte, block: Bytes, payload: Bytes)
    requires |block| < 0x1_0000
    requires verCmd == VER_CMD_LOCAL || (verCmd == VER_CMD_PROXY && (famTp == TP_TCP4 || famTp == TP_TCP6))
    ensures Receive(Framed(verCmd, famTp, block) + payload) ==
            if verCmd == VER_CMD_LOCAL then Accepted(Local, payload)
            else match Addresses(famTp / 16, block)
                 case None => Malformed
                 case Some((src, dst)) => Accepted(Tcp(src, dst), payload)
  {
    Framing(verCmd, famTp, block, payload);
  }

  /** Where the receiver finds the parts of a framed header. */
  lemma Framing(verCmd: byte, famTp: byte, block: Bytes, payload: Bytes)
    requires |block| < 0x1_0000
    ensures var s := Framed(verCmd, famTp, block) + payload;
            && |s| == 16 + |block| + |payload|
            && s[..12] == SIGNATURE && s[12] == verCmd && s[13] == famTp && U16At(s, 14) == |block|
            && s[16..16 + |block|] == block && s[16 + |block|..] == payload
  {}

  /** No proper prefix of a header is acted upon: the receiver waits for the rest. */
  lemma NoEarlyDecision(src: SocketAddr, dst: SocketAddr, k: nat)
    requires k < |Header(src, dst)|
    ensures Receive(Header(src, dst)[..k]) == NeedMore
  {
    var h := Header(src, dst);
    var p := h[..k];
    assert h[..12] == SIGNATURE;
    if k < 12 {
      assert p == SIGNATURE[..k];
    } else {
      assert p[..12] == SIGNATURE;
      assert forall i :: 0 <= i < k ==> p[i] == h[i];
    }
  }

  /** Two upstream streams that agree announce the same endpoints and carry the same payload,
      so payload bytes can never pass for a different header. */
  lemma StreamsAreUnambiguous(
      src1: SocketAddr, dst1: SocketAddr, payload1: Bytes, src2: SocketAddr, dst2: SocketAddr, payload2: Bytes)
    requires Header(src1, dst1) + payload1 == Header(src2, dst2) + payload2
    ensures Announcement(src1, dst1) == Announcement(src2, dst2) && payload1 == payload2
  {
    ReceiverReadsBack(src1, dst1, payload1);
    ReceiverReadsBack(src2, dst2, payload2);
  }
}
